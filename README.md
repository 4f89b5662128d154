# Kanopy chat backend: the `/chat` turn handler

This project models, in Dafny, the `/chat` handler of the Kanopy chat backend
(`server.js`). The handler is a thin layer between a shop's customers and a
hosted language model. For each request it does five things:

- It rejects a missing or empty message with a 400 "Mensaje vacío".
- It picks the session (`sessionId`, or `"default"`), creating an empty
  transcript on first use.
- It pushes the user's turn and cuts the transcript back to its last
  `MAX_HISTORY` entries.
- On product intent (a case-insensitive keyword test) it renders the
  storefront's product list into a catalog context.
- It sends one system message (base prompt plus context) followed by the
  transcript to the completion service. On success it pushes the assistant's
  reply and answers with it; on any error it answers with a fixed WhatsApp
  hand-off text.

The model has five modules, one per component:

- `Text`: ASCII lower-casing, substring search, and joining and splitting on
  newlines.
- `Intent`: the product-intent keyword test.
- `Catalog`: rendering the catalog context.
- `Prompt`: turns and the message list sent to the service.
- `ChatEndpoint`: three parts.
  - A pure specification of one turn, `ChatTurn`, with lemmas about it.
  - The session store: a class `SessionStore` holding
    `map<string, seq<Turn>>`.
  - `HandleChat`, a method that updates that map step by step as the
    handler does. It is proved equal to `ChatTurn`, and it keeps the store
    invariant.

The two outside calls are inputs to the model:

- The storefront's answer to `getProducts()` is a `Fetch` value: a product
  list, or `FetchError` for a thrown error.
- The completion service is a function from the message list to
  `Ok(reply) | Fail`.

`SYSTEM_PROMPT_BASE` and `MAX_HISTORY` are constants of the store, set when it
is constructed. `MAX_HISTORY` must be positive.

Three behaviours of the handler are modelled exactly as the code has them:

- The cut to `MAX_HISTORY` entries happens right after the user's push and
  before the assistant's push. After a successful turn on a full session the
  transcript therefore holds `MAX_HISTORY + 1` entries
  (`FullSessionStaysAtBound`).
- The user's turn is stored before the completion service is called, and it
  stays stored when the turn fails: nothing is rolled back (`FailedTurn`).
- The fixed WhatsApp reply of the `catch` block is sent with HTTP status 500.
  The model tags that response `Fallback`.

## Model

| member | source | states |
|---|---|---|
| Text.AsciiLower | server.js:53 | the lower-cased message has the same length and each character is the ASCII lower case of the original one (the regular expression's `i` flag over ASCII keywords) |
| Text.Contains | server.js:53 | the scan from the left answers true exactly when the keyword occurs at some position of the text |
| Text.JoinLines | server.js:61 | `join("\n")`: the lines with one newline between consecutive ones and none at the ends; `SplitJoin` and `JoinSplit` prove it is undone by reading the text line by line |
| Text.SplitJoin | server.js:61 | splitting the `join("\n")` of non-empty single-line pieces on newlines gives back exactly those pieces, in order |
| Text.JoinSplit | server.js:61 | joining the newline-separated pieces of any text with `"\n"` gives back that text: the line reading loses nothing |
| Intent.WantsProducts | server.js:53 | the regular-expression test: some keyword of the alternation occurs in the message; `WantsProductsMeansKeyword` proves this is a case-ignoring match of one of the nine keywords |
| Intent.KeywordsAreLowerCase | server.js:53 | every keyword of the alternation is already lower case, so comparing against the lower-cased message is the case-insensitive match |
| Intent.WantsProductsMeansKeyword | server.js:53 | product intent holds if and only if one of `precio, comprar, producto, llavero, tienda, disponible, venta, link, enlace` occurs in the message with ASCII case ignored |
| Intent.WantsProductsCaseBlind | server.js:53 | two messages that differ only in ASCII case get the same intent answer |
| Intent.KeychainQuestionWantsProducts | server.js:53 | "¿cuánto cuesta el LLAVERO X?" has product intent |
| Intent.GreetingWantsNoProducts | server.js:53 | "hola" has no product intent |
| Catalog.ProductLine | server.js:61 | the template for one product: a dash, then the title, price and url separated by bar characters; `ProductLineIsSingleLine` and `ContextListsEveryProduct` are about it |
| Catalog.ProductLines | server.js:61 | there is one listing line per product, in input order, and line `i` is a dash, then the title, price and url of product `i` separated by bar characters |
| Catalog.CatalogContext | server.js:52-64 | the context variable: empty without intent, the header followed by the joined product lines when there are products, the note otherwise; `CatalogContextCases` and `ContextLinesAreProductLines` characterise it |
| Catalog.CatalogContextCases | server.js:52-64 | the context is empty exactly when there is no product intent; with intent and no products it is the "catálogo se está ampliando" note; with products it starts with the catalog header |
| Catalog.JoinLinesHasLine | server.js:61 | every line of the joined listing occurs in the joined text |
| Catalog.ContextListsEveryProduct | server.js:59-61 | with product intent, every product's line (its title, price and link) occurs in the context |
| Catalog.ProductLineIsSingleLine | server.js:61 | a product whose fields hold no newline renders as a single line |
| Catalog.ContextLinesAreProductLines | server.js:59-61 | read line by line, a non-empty listing is two blank lines, the heading, then exactly one line per product in input order and nothing else |
| Prompt.Assemble | server.js:69-72 | the message list has one more entry than the transcript: first a system message whose content is the base prompt followed by the context, then the transcript verbatim |
| Prompt.SystemTurnOnlyFirst | server.js:69-72 | over a stored transcript, the first message is the only one with the system role |
| ChatEndpoint.SessionKey | server.js:36 | the key is never empty; it is `"default"` exactly when the id is missing, empty or itself `"default"`; otherwise it is the given id |
| ChatEndpoint.Lookup | server.js:39-41 | the session's transcript, or the empty one that the handler creates for a session not seen before; `FirstTurnOfSession` is about the second case |
| ChatEndpoint.SliceLast | server.js:48 | `slice(-n)` gives a suffix of the input: the last `n` elements (all of them when fewer), or everything for `n = 0` |
| ChatEndpoint.StoreUser | server.js:44-49 | the transcript after the user's push and the cut to `MAX_HISTORY` entries; `StoreUserKeepsLatest` and `StoreUserConversational` characterise it |
| ChatEndpoint.StoreUserKeepsLatest | server.js:44-49 | after the push and the cut, the transcript is the last `min(len + 1, MAX_HISTORY)` entries of `old + [user turn]`, in order, and ends with the user's turn |
| ChatEndpoint.Complete | server.js:52-79 | the outcome of the turn once the user's turn is stored: a catalog error fails it, otherwise it is the service's answer to the assembled list; `CatalogOnlyOnIntent` and `MessagesSent` characterise it |
| ChatEndpoint.ChatTurn | server.js:29-93 | one whole turn: the response and the session store afterwards; `EmptyMessageRejected`, `TurnTouchesOnlyItsSession`, `SuccessfulTurn`, `FailedTurn`, `FirstTurnOfSession` and `TurnKeepsInvariant` characterise it |
| ChatEndpoint.EmptyMessageRejected | server.js:32-34 | the response is the 400 "Mensaje vacío" exactly when the message is missing or empty, and then the store is unchanged |
| ChatEndpoint.TurnTouchesOnlyItsSession | server.js:36-41 | a turn adds only its own session key to the store and leaves every other session's transcript as it was |
| ChatEndpoint.SuccessfulTurn | server.js:44-86 | after a successful completion the reply is returned, and the transcript is the cut transcript plus the assistant's turn. It has at most `MAX_HISTORY + 1` entries and ends with the user's message and the reply |
| ChatEndpoint.FailedTurn | server.js:44-91 | when the catalog or the completion fails, the fixed WhatsApp text is returned, and the transcript keeps the user's turn last with no assistant turn after it |
| ChatEndpoint.FirstTurnOfSession | server.js:39-84 | an unseen session starts empty: after its first turn it holds the user's message and the reply, or only the user's message on failure |
| ChatEndpoint.CatalogOnlyOnIntent | server.js:53-57 | without product intent the catalog's answer does not matter; with intent a catalog error fails the turn |
| ChatEndpoint.MessagesSent | server.js:69-72 | the list sent to the service is the system message with base prompt plus catalog context, followed by the stored transcript verbatim, with no other system message |
| ChatEndpoint.StoreUserConversational | server.js:38-49 | pushing the user's turn and cutting keeps a transcript free of system turns |
| ChatEndpoint.AppendConversational | server.js:84 | pushing the assistant's turn keeps a transcript free of system turns |
| ChatEndpoint.TurnKeepsInvariant | server.js:38-84 | every turn keeps the store invariant: each transcript holds only user and assistant turns and at most `MAX_HISTORY + 1` of them |
| ChatEndpoint.FullSessionStaysAtBound | server.js:47-84 | a successful turn on a session already holding `MAX_HISTORY` or more entries leaves exactly `MAX_HISTORY + 1` |
| ChatEndpoint.SessionStore.constructor | server.js:2-26 | a store with no sessions, holding `SYSTEM_PROMPT_BASE` and a positive `MAX_HISTORY`, that satisfies the store invariant (the declarations of `sessions` and `MAX_HISTORY` are not part of server.js) |
| ChatEndpoint.SessionStore.StoreUserTurn | server.js:39-49 | creates the session on first use, pushes the user's turn and cuts, changing only that session's transcript |
| ChatEndpoint.SessionStore.StoreAssistantTurn | server.js:84 | pushes the assistant's reply onto the session's transcript without cutting |
| ChatEndpoint.SessionStore.Converse | server.js:52-79 | fetches the catalog only on product intent and turns a fetch error into a failed turn; otherwise it sends the system message with the catalog context, then the stored transcript, and returns the service's outcome: exactly the outcome `Complete` specifies |
| ChatEndpoint.SessionStore.HandleChat | server.js:29-93 | updating the store step by step, the handler returns the response and leaves the store that `ChatTurn` specifies, and it keeps the store invariant |

## Left out

- The completion call (server.js:75-79), with its model name and temperature, is a foreign network call. It is a function parameter `seq<Turn> -> Completion`. `Fail` stands for every answer that ends in the `catch` block: the call throws, or the answer has no `choices[0].message` (server.js:81).
- An answer whose `message.content` is `null` does not throw. The handler then stores an assistant turn with `null` content and replies `{ reply: null }` with status 200 (server.js:81-86). `Ok(reply)` carries a string, so this case is not modelled.
- `getProducts()` is not part of this model. It is a network call to the storefront, so its result is an input `Fetch`, with a thrown error as `FetchError`.
- Express routing, request parsing, JSON serialisation and `console.error` logging are plumbing. HTTP statuses are kept only as the three response kinds.
- Concurrent requests on the shared `sessions` object are not modelled. Each turn is atomic, so interleavings of two turns of one session are not covered.
- The wording of `SYSTEM_PROMPT_BASE` is left out. It is a constant string of the store, and the model depends only on it being the same for every turn.
- `MAX_HISTORY` and `sessions` are declared outside the handler. The bound is a positive constant of the store. `SliceLast` also models `slice(-0)`, but the store never uses a zero bound.
- The message and the session id are modelled as optional strings. JavaScript truthiness of other value types (numbers, objects) is not modelled.
- Session ids that name properties of `Object.prototype` (such as `"constructor"`) behave differently on a plain object. The store is a map, so those ids are not modelled.
- Product fields are strings. How a template literal would stringify other field types is not modelled.
- Catalog.ContextLinesAreProductLines: stated only for products whose fields hold no newline, because a newline inside a field makes the lines of the listing impossible to tell apart. `ContextListsEveryProduct` holds for all products.
- Case-insensitive matching is ASCII lower-casing. The keywords are ASCII, and the `i` flag never maps a non-ASCII character onto an ASCII one, so this is exact for this expression.
