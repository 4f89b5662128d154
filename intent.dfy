/** The product-intent test of the chat handler: a case-insensitive regular
    expression made of an alternation of fixed keywords (server.js line 53). */
module Intent {
  import opened Text

  /** The alternatives of the product-intent regular expression, in order. */
  const Keywords: seq<string> :=
    ["precio", "comprar", "producto", "llavero", "tienda", "disponible", "venta", "link", "enlace"]

  /** The message asks about products: some keyword occurs in the ASCII
      lower-cased message. The keywords are lower-case ASCII, so this is the
      `i` flag of the source's regular expression. */
  predicate WantsProducts(message: string)
  {
    exists k :: 0 <= k < |Keywords| && Contains(AsciiLower(message), Keywords[k])
  }

  /** `kw` occurs at position `i` of `s` when case is ignored. */
  predicate MatchesIgnoringCaseAt(s: string, kw: string, i: int)
  {
    0 <= i && i + |kw| <= |s| &&
    forall j :: 0 <= j < |kw| ==> SameIgnoringCase(s[i + j], kw[j])
  }

  /** Every keyword is already in lower case. */
  lemma KeywordsAreLowerCase()
    ensures forall k, j :: 0 <= k < |Keywords| && 0 <= j < |Keywords[k]| ==>
      LowerChar(Keywords[k][j]) == Keywords[k][j]
  {
    forall k, j | 0 <= k < |Keywords| && 0 <= j < |Keywords[k]|
      ensures LowerChar(Keywords[k][j]) == Keywords[k][j]
    {
      assert !('A' <= Keywords[k][j] <= 'Z') by {
        assert k in {0, 1, 2, 3, 4, 5, 6, 7, 8};
      }
    }
  }

  /** One position: the lower-cased text holds `kw` there exactly when the
      original text holds `kw` there up to case. */
  lemma LowerOccursAt(s: string, kw: string, i: int)
    requires forall j :: 0 <= j < |kw| ==> LowerChar(kw[j]) == kw[j]
    ensures OccursAt(AsciiLower(s), kw, i) <==> MatchesIgnoringCaseAt(s, kw, i)
  {
    var t := AsciiLower(s);
    if OccursAt(t, kw, i) {
      forall j | 0 <= j < |kw| ensures SameIgnoringCase(s[i + j], kw[j]) {
        assert t[i..i + |kw|][j] == t[i + j];
      }
    }
    if MatchesIgnoringCaseAt(s, kw, i) {
      assert t[i..i + |kw|] == kw by {
        forall j | 0 <= j < |kw| ensures t[i..i + |kw|][j] == kw[j] {
          assert t[i..i + |kw|][j] == t[i + j];
        }
      }
    }
  }

  /** The product-intent test holds exactly when some keyword occurs somewhere
      in the message, with ASCII case ignored. */
  lemma WantsProductsMeansKeyword(message: string)
    ensures WantsProducts(message) <==>
      exists k, i :: 0 <= k < |Keywords| && MatchesIgnoringCaseAt(message, Keywords[k], i)
  {
    KeywordsAreLowerCase();
    if WantsProducts(message) {
      var k :| 0 <= k < |Keywords| && Contains(AsciiLower(message), Keywords[k]);
      var i :| OccursAt(AsciiLower(message), Keywords[k], i);
      LowerOccursAt(message, Keywords[k], i);
    }
    if exists k, i :: 0 <= k < |Keywords| && MatchesIgnoringCaseAt(message, Keywords[k], i) {
      var k, i :| 0 <= k < |Keywords| && MatchesIgnoringCaseAt(message, Keywords[k], i);
      LowerOccursAt(message, Keywords[k], i);
      assert Contains(AsciiLower(message), Keywords[k]);
    }
  }

  /** Messages that differ only in ASCII case get the same answer. */
  lemma WantsProductsCaseBlind(a: string, b: string)
    requires |a| == |b|
    requires forall i :: 0 <= i < |a| ==> SameIgnoringCase(a[i], b[i])
    ensures WantsProducts(a) == WantsProducts(b)
  {
    assert AsciiLower(a) == AsciiLower(b);
  }

  /** A question about a keychain's price asks about products. */
  lemma KeychainQuestionWantsProducts()
    ensures WantsProducts("¿cuánto cuesta el LLAVERO X?")
  {
    var m := "¿cuánto cuesta el LLAVERO X?";
    KeywordsAreLowerCase();
    assert MatchesIgnoringCaseAt(m, Keywords[3], 18);
    WantsProductsMeansKeyword(m);
  }

  /** A greeting does not. */
  lemma GreetingWantsNoProducts()
    ensures !WantsProducts("hola")
  {
    var t := AsciiLower("hola");
    assert t == "hola";
    forall k | 0 <= k < |Keywords| ensures !Contains(t, Keywords[k]) {
      assert k in {0, 1, 2, 3, 4, 5, 6, 7, 8};
    }
  }
}
