# Order-status chatbot: verified model of the chat context and the order access rules

This project models the core of an order-status customer-service chatbot. The
backend is a Spring service: a customer logs in, asks about orders in plain
language, and the service answers through a language model. Before asking the
model, it builds a prompt from two parts. The first is the knowledge-base
documents a vector search finds. The second is an "order context", text about
the customer's own orders that the message asks for. The frontend is a React
application with form validators and an environment-driven configuration.

The model covers:

- **Chat service** (`chat.dfy`). It covers:
  - the keyword intent classifier and the confidence score, in hundredths;
  - the order-number and status-word extractors;
  - the order context, built section by section: the numbered order, history, recent, and by status;
  - the ownership check on the order looked up by number, and the error line that ends the context when a lookup throws;
  - the system prompt, the response, and the fixed fallback reply.

  The main security property is `OrderContextConfidential` / `PromptConfidential`. Take two order stores that agree on everything the requester owns, and on the number and owner of every other order. Both give the same order context and the same prompt. So no field of someone else's order, other than its number, can reach the prompt.
- **Knowledge retrieval** (`rag.dfy`). It covers:
  - mapping the similarity-search rows to documents, skipping rows that fail to map;
  - turning a failed embedding or a failed search into an empty result;
  - rendering the documents into the knowledge text.
- **Order store** (`orders.dfy`, `customers.dfy`): the repository queries as specification functions over a sequence of orders (or customers), plus the newest-first sort.
- **Order endpoints** (`order_controller.dfy`). They cover:
  - 200/403/404/400 for an order by number;
  - the newest-first list truncated to a limit;
  - the status filter with its four accepted values;
  - tracking.
- **Authentication service** (`auth.dfy`). This is a class over the customer and order tables, with the identity sequence. It covers registration (three sample orders in one transaction), login, account creation, and token resolution.
- **Frontend** (`validation.ts`, the validators of `Register.tsx`, `environment.ts`), in `validation.dfy`, `register_form.dfy` and `environment.dfy`.
- **Cross-component properties** (`consistency.dfy`):
  - the chat and the order endpoint make the same ownership decision;
  - a status word the chat extracts passes the endpoint's status check;
  - the order numbers made at registration are never recognised by the chat's extractor.

Collaborators are parameters: the password encoder, the token generator and parser, the embedding provider, the similarity search and the chat completion. `None` from a collaborator stands for the exception it throws. A lookup that throws is one of the kinds in `OrderStore.failing`.

Behaviour of the code worth noting, which the model reproduces:

- A negative `limit` on `getMyOrders` is answered with 400 for every customer, including one without orders. `subList(0, limit)` is reached whenever the size exceeds the limit, and any size exceeds a negative limit.
- The sample orders of a new customer carry the save time as both dates. The entity's pre-persist hook overwrites the back-dated dates set before `save`.
- `debug` and `useProxy` default on `NODE_ENV`, while hot reload, log level and the nginx setting default on the resolved environment. `DebugAndHotReloadDiverge` shows a configuration where this makes them disagree.
- A refused sample-order save rolls the registration's table writes back, but the identity sequence keeps its advance.
- The registration form's email pattern is looser than the login form's. `RegistrationEmailLooser` shows "a@b.c".

## Model

| member | source | states |
|---|---|---|
| `Text.Lower` | backend/src/main/java/com/chatbot/service/ChatService.java:310 | toLowerCase keeps the length and maps each character through the ASCII lower-case mapping |
| `Text.LowerOfUpper` | backend/src/main/java/com/chatbot/service/ChatService.java:203 | lower-casing an upper-cased text gives the same as lower-casing the original |
| `Text.Format03d` | backend/src/main/java/com/chatbot/service/AuthService.java:84 | for a non-negative id, "%03d" gives digits that spell the id, exactly three below 1000 and the id's own digits from 1000 on |
| `Orders.Filter` | backend/src/main/java/com/chatbot/repository/OrderRepository.java:27 | a filtered result holds exactly the stored elements that satisfy the condition, with no repeats beyond the store's |
| `Orders.FindByOrderNumber` | backend/src/main/java/com/chatbot/repository/OrderRepository.java:20 | a found order is stored under that number; nothing is found exactly when no order has it; with unique numbers, the found order is the only one with the number |
| `Orders.FindByCustomerId` | backend/src/main/java/com/chatbot/repository/OrderRepository.java:27 | exactly the stored orders of that customer |
| `Orders.FindByCustomerIdAndStatus` | backend/src/main/java/com/chatbot/repository/OrderRepository.java:42 | exactly the stored orders of that customer with that status |
| `Orders.FindByOrderNumberContaining` | backend/src/main/java/com/chatbot/repository/OrderRepository.java:49-50 | exactly the stored orders whose number contains the text |
| `Orders.FindRecentOrdersByCustomerId` | backend/src/main/java/com/chatbot/repository/OrderRepository.java:57-58 | exactly the customer's orders created on or after the date thirty days back, newest first, drawn from the store |
| `Orders.InsertNewestFirst` | backend/src/main/java/com/chatbot/controller/OrderController.java:171 | inserting into a newest-first list keeps it newest first and adds exactly that order |
| `Orders.SortNewestFirst` | backend/src/main/java/com/chatbot/controller/OrderController.java:171 | the sort by creation date descending is newest first and a permutation of its input |
| `Orders.AppendKeepsNumbersUnique` | backend/src/main/java/com/chatbot/model/Order.java:18 | saving an order whose number is free keeps order numbers unique |
| `Orders.FilterAgree` | backend/src/main/java/com/chatbot/repository/OrderRepository.java:27 | a filter cannot tell apart two stores that agree on the elements it keeps and on which elements it keeps |
| `Orders.FindByOrderNumberAgree` | backend/src/main/java/com/chatbot/repository/OrderRepository.java:20 | stores that agree on numbers and owners, and on the requester's orders, agree on whether a number is found, on its owner, and on the order itself when the requester owns it |
| `Orders.CustomerQueriesAgree` | backend/src/main/java/com/chatbot/repository/OrderRepository.java:27-58 | such stores give the same per-customer, per-customer-and-status and recent results |
| `Customers.AppendKeepsEmailsUnique` | backend/src/main/java/com/chatbot/model/Customer.java:17 | saving a customer whose email is free keeps emails unique |
| `Customers.FindByEmailAndEnabled` | backend/src/main/java/com/chatbot/repository/CustomerRepository.java:32 | a found customer has that email and flag; none is found exactly when no customer has both; with unique emails it is the one with the email |
| `Customers.ExistsByEmail` | backend/src/main/java/com/chatbot/repository/CustomerRepository.java:24 | true exactly when some customer has the email |
| `Chat.AnalyzeIntent` | backend/src/main/java/com/chatbot/service/ChatService.java:202-216 | the first keyword rule that holds decides: status, then history, then tracking, else general; never UNKNOWN, and the help/support branch changes nothing |
| `Chat.IntentIgnoresCase` | backend/src/main/java/com/chatbot/service/ChatService.java:203 | the intent of an upper-cased message is the intent of the message |
| `Chat.TrackingNeverGeneral` | backend/src/main/java/com/chatbot/service/ChatService.java:206-211 | a message mentioning "track" is a status inquiry or a tracking request, never general |
| `Chat.Confidence` | backend/src/main/java/com/chatbot/service/ChatService.java:224-241 | the score lies in [0, 1] (one of 0.80, 0.85, 0.90, 0.95), with the +0.10 exactly for replies over 20 characters and the +0.05 exactly for a helpful keyword |
| `Chat.CalculateConfidence` | backend/src/main/java/com/chatbot/service/ChatService.java:224-241 | the incremental computation gives the score above |
| `Chat.FirstOrderNumber` | backend/src/main/java/com/chatbot/service/ChatService.java:403-409 | nothing exactly when no token matches; otherwise the first matching token, with none before it matching |
| `Chat.ExtractOrderNumber` | backend/src/main/java/com/chatbot/service/ChatService.java:401-410 | the loop returns the first whitespace token matching ORD- followed by digits, and whatever it returns matches |
| `Chat.PunctuatedNumberNotMatched` | backend/src/main/java/com/chatbot/service/ChatService.java:405 | "ORD-007?" is not an order number |
| `Chat.ExtractedNumberIsToken` | backend/src/main/java/com/chatbot/service/ChatService.java:403-406 | an extracted number is one of the message's whitespace-split tokens and holds no whitespace |
| `Chat.ExtractStatus` | backend/src/main/java/com/chatbot/service/ChatService.java:417-423 | the status word in priority order shipped, processing, delivered, cancelled, each case exactly characterised |
| `Chat.LastUpdatedLineIffUpdated` | backend/src/main/java/com/chatbot/service/ChatService.java:323-333 | the specific-order block has a "Last Updated" line exactly when the order has an update date |
| `Chat.SpecificBlockShowsOrder` | backend/src/main/java/com/chatbot/service/ChatService.java:323-333 | an owned order's block shows its number, status, amount, address and creation date |
| `Chat.NumberSection` | backend/src/main/java/com/chatbot/service/ChatService.java:314-338 | no number gives no text; the section throws exactly when there is a number and the lookup throws |
| `Chat.NumberSectionNotFound` | backend/src/main/java/com/chatbot/service/ChatService.java:336 | a number no order has gives only the not-found line naming it |
| `Chat.NumberSectionByOwner` | backend/src/main/java/com/chatbot/service/ChatService.java:319-333 | the stored order with the number gives its block when the requester owns it, else only the access-denied line naming the number |
| `Chat.CustomerSections` | backend/src/main/java/com/chatbot/service/ChatService.java:340-386 | the history, recent and status sections, three of them |
| `Chat.OrderSections` | backend/src/main/java/com/chatbot/service/ChatService.java:314-386 | the four sections in the order they are appended |
| `Chat.AssembleWithoutFailure` | backend/src/main/java/com/chatbot/service/ChatService.java:308-393 | with no lookup throwing, the context is every section's text in order |
| `Chat.AssembleStopsAtFailure` | backend/src/main/java/com/chatbot/service/ChatService.java:388-391 | a throwing section keeps the text built before it, adds the error line, and skips every later section |
| `Chat.AssembleSilent` | backend/src/main/java/com/chatbot/service/ChatService.java:308-393 | sections that all render nothing assemble to nothing |
| `Chat.QuietMessageNoContext` | backend/src/main/java/com/chatbot/service/ChatService.java:308-393 | a message with no order number and none of the section keywords gives an empty order context |
| `Chat.CancelledAloneNoStatusSection` | backend/src/main/java/com/chatbot/service/ChatService.java:371-373 | a message whose only status word is "cancelled" extracts CANCELLED but gets no status section |
| `Chat.StatusSectionNeverCancelled` | backend/src/main/java/com/chatbot/service/ChatService.java:371-375 | once the status section is entered, the extracted status is present and never CANCELLED |
| `Chat.NumberSectionsAgree` | backend/src/main/java/com/chatbot/service/ChatService.java:314-338 | stores that agree on the requester's orders and on numbers and owners give the same numbered-order section |
| `Chat.HistorySectionsAgree` | backend/src/main/java/com/chatbot/service/ChatService.java:340-353 | such stores give the same history section |
| `Chat.RecentSectionsAgree` | backend/src/main/java/com/chatbot/service/ChatService.java:355-368 | such stores give the same recent section |
| `Chat.StatusSectionsAgree` | backend/src/main/java/com/chatbot/service/ChatService.java:370-386 | such stores give the same status section |
| `Chat.OrderContextConfidential` | backend/src/main/java/com/chatbot/service/ChatService.java:308-394 | such stores give the same order context, so no other customer's order data beyond its number reaches it |
| `Chat.AppendOrderList` | backend/src/main/java/com/chatbot/service/ChatService.java:345-351 | the loop appends the header, one line per order in order, and the blank line |
| `Chat.AppendNumberSection` | backend/src/main/java/com/chatbot/service/ChatService.java:314-338 | appends the numbered-order section's text, or reports the exception with the error line appended |
| `Chat.AppendHistorySection` | backend/src/main/java/com/chatbot/service/ChatService.java:340-353 | appends the history section's text, or reports the exception with the error line appended |
| `Chat.AppendRecentSection` | backend/src/main/java/com/chatbot/service/ChatService.java:355-368 | appends the recent section's text, or reports the exception with the error line appended |
| `Chat.AppendStatusSection` | backend/src/main/java/com/chatbot/service/ChatService.java:370-386 | appends the status section's text, or reports the exception with the error line appended |
| `Chat.AssembleStep` | backend/src/main/java/com/chatbot/service/ChatService.java:388-391 | one append step either leaves the rest of the sections still to come or, on an exception, completes the context |
| `Chat.AppendCustomerSections` | backend/src/main/java/com/chatbot/service/ChatService.java:340-391 | appending history, recent and status in turn adds exactly their assembled text |
| `Chat.RetrieveOrderContext` | backend/src/main/java/com/chatbot/service/ChatService.java:308-394 | the StringBuilder procedure computes the order context the lemmas above describe |
| `Chat.CustomerIdFromEmail` | backend/src/main/java/com/chatbot/service/ChatService.java:290-300 | the id of the enabled customer with the email, and 1 when there is none |
| `Chat.SystemPrompt` | backend/src/main/java/com/chatbot/service/ChatService.java:129-166 | the context sits unchanged in the template's slot, between the fixed head and tail |
| `Chat.CombinedContext` | backend/src/main/java/com/chatbot/service/ChatService.java:75 | the knowledge text, a blank line, then the order text, each unchanged |
| `Chat.PromptConfidential` | backend/src/main/java/com/chatbot/service/ChatService.java:60-79 | stores that agree on what the requester owns, and on numbers and owners, give the identical system prompt |
| `Chat.ProcessMessage` | backend/src/main/java/com/chatbot/service/ChatService.java:60-122 | a completion gives its reply with the message's intent and the reply's score; a failed one gives the fixed apology with UNKNOWN and 0.0; UNKNOWN appears exactly then |
| `Rag.MapRow` | backend/src/main/java/com/chatbot/service/RagService.java:155-180 | a row maps exactly when its id casts to Long and the next six cells cast to String; the title, content and category come from their cells |
| `Rag.MappedRows` | backend/src/main/java/com/chatbot/service/RagService.java:154-186 | the documents of the rows that map, never more than the rows, each from some row |
| `Rag.MappedRowsAppend` | backend/src/main/java/com/chatbot/service/RagService.java:154-186 | mapping is row by row: the documents of two row lists are those of the first followed by those of the second |
| `Rag.MappedRowsCount` | backend/src/main/java/com/chatbot/service/RagService.java:154-186 | one document for each row that maps, no more and no fewer |
| `Rag.ConvertRows` | backend/src/main/java/com/chatbot/service/RagService.java:153-186 | the per-row try/catch loop keeps the mapped documents in row order |
| `Rag.RetrieveRelevantDocuments` | backend/src/main/java/com/chatbot/service/RagService.java:144-195 | a failed embedding or search gives the empty list; otherwise the mapped rows of the search, so no error escapes |
| `Rag.RetrieveRelevantDocumentsByCategory` | backend/src/main/java/com/chatbot/service/RagService.java:204-256 | the same mapping and error behaviour over the category-filtered search |
| `Rag.KnowledgeTextAt` | backend/src/main/java/com/chatbot/service/RagService.java:268-277 | the i-th block of the knowledge text is the i-th document's, after the header and the blocks before it |
| `Rag.BuildContext` | backend/src/main/java/com/chatbot/service/RagService.java:263-278 | "No relevant information found." for no documents, else the header then one block per document, in order |
| `OrderApi.RemovingShortens` | backend/src/main/java/com/chatbot/controller/OrderController.java:84 | removing every occurrence never lengthens a text and shortens one that contains the target |
| `OrderApi.TokenDropsEveryBearer` | backend/src/main/java/com/chatbot/controller/OrderController.java:84 | a header containing "Bearer " anywhere is changed by the token extraction, not only at its start |
| `OrderApi.BearerHeaderGivesToken` | backend/src/main/java/com/chatbot/controller/OrderController.java:84 | "Bearer " followed by a token without that text yields the token |
| `OrderApi.IsValidStatus` | backend/src/main/java/com/chatbot/controller/OrderController.java:356-361 | true exactly for PROCESSING, SHIPPED, DELIVERED and CANCELLED |
| `OrderApi.StatusCheckIgnoresCase` | backend/src/main/java/com/chatbot/controller/OrderController.java:253-256 | a status in any letter case that upper-cases to an accepted value passes |
| `OrderApi.GetOrderByNumber` | backend/src/main/java/com/chatbot/controller/OrderController.java:77-105 | 400 exactly when the token or the lookup fails; 200 only with the requester's own order of that number; 403 only when another customer's order has it; 404 exactly when no order has it |
| `OrderApi.GetOrderByNumberOwnership` | backend/src/main/java/com/chatbot/controller/OrderController.java:88-101 | with unique numbers, the stored order with the number decides: 200 with it for its owner, 403 for anyone else |
| `OrderApi.GetMyOrders` | backend/src/main/java/com/chatbot/controller/OrderController.java:157-181 | 400 exactly for a bad token, a failed lookup or a negative limit; otherwise the first min(n, limit) of the customer's orders sorted newest first, all the requester's |
| `OrderApi.GetMyOrdersByStatus` | backend/src/main/java/com/chatbot/controller/OrderController.java:242-265 | 400 for a bad token or a status that is not one of the four after upper-casing, before any lookup; 400 when the lookup throws; never 403 or 404; otherwise exactly the requester's orders with that status |
| `OrderApi.GetOrderTracking` | backend/src/main/java/com/chatbot/controller/OrderController.java:309-349 | the same 200/403/404/400 decision as the order endpoint; the record carries the path's number and the stored status, last updated before now and delivery expected after |
| `Auth.DummyOrders` | backend/src/main/java/com/chatbot/service/AuthService.java:81-114 | three orders of the new customer numbered "ORD-", the id as "%03d", then "-001", "-002" and "-003"; statuses PROCESSING, SHIPPED and DELIVERED; amounts 199.99, 149.50 and 89.99 with their three addresses; stamped with the save time |
| `Auth.SavedInTurn` | backend/src/main/java/com/chatbot/service/AuthService.java:81-114 | three orders with distinct numbers can be saved one after the other exactly when none of their numbers is taken |
| `Auth.AuthService.constructor` | backend/src/main/java/com/chatbot/service/AuthService.java:21-33 | a service over tables that satisfy their constraints |
| `Auth.AuthService.SaveOrder` | backend/src/main/java/com/chatbot/model/Order.java:18 | a save succeeds exactly when the number is free and then appends the order; the constraints still hold |
| `Auth.AuthService.CreateDummyOrders` | backend/src/main/java/com/chatbot/service/AuthService.java:81-114 | the three sample orders are appended exactly when none of their numbers is taken; otherwise the saves stop at the first order whose number is taken, keeping the ones before it |
| `Auth.AuthService.SaveThree` | backend/src/main/java/com/chatbot/service/AuthService.java:90-113 | three saves in turn append all three exactly when none of their numbers is taken; otherwise the table gains exactly the orders before the first one whose number is taken |
| `Auth.AuthService.RegisterCustomer` | backend/src/main/java/com/chatbot/service/AuthService.java:41-75 | a taken email, and only a taken email, fails with EmailAlreadyExists and nothing saved; otherwise the customer is saved enabled with the encoder's hash, with the three sample orders, and the response carries the new id, a token and the names; a refused order save is the only other failure, rolls both tables back, and leaves the id sequence advanced |
| `Auth.AuthService.AuthenticateCustomer` | backend/src/main/java/com/chatbot/service/AuthService.java:122-149 | the same error for an unknown account and a wrong password; success exactly when an enabled customer with the email matches the password, answered with that customer's id, email and names |
| `Auth.AuthService.CreateCustomer` | backend/src/main/java/com/chatbot/service/AuthService.java:156-169 | a taken email, and only a taken email, fails with EmailAlreadyExists and nothing saved; otherwise the customer is saved enabled with the encoded password under the next id |
| `Auth.AuthService.ValidateTokenAndGetCustomer` | backend/src/main/java/com/chatbot/service/AuthService.java:185-192 | empty when the token does not parse; a result is the enabled customer with the token's email |
| `Validation.MatchesEmailRegexIffShape` | frontend/src/utils/validation.ts:8 | the direct check accepts exactly the strings EMAIL_REGEX describes |
| `Validation.EmailShapeEndsWithLetter` | frontend/src/utils/validation.ts:8 | an email the pattern accepts has at least five characters and ends with a letter, never with a dot |
| `Validation.ValidateEmail` | frontend/src/utils/validation.ts:15-36 | true exactly for a pattern match of at most 254 characters that neither starts with a dot nor contains "..", so the emptiness and trailing-dot checks never decide |
| `Validation.ValidatePassword` | frontend/src/utils/validation.ts:43-53 | valid exactly from six characters on, and exactly when the message is empty; the required and too-short messages otherwise |
| `Validation.GetEmailError` | frontend/src/utils/validation.ts:60-70 | empty exactly for a valid email; "Email is required" for an empty one; the invalid message otherwise |
| `Validation.GetPasswordError` | frontend/src/utils/validation.ts:77-79 | the password check's message, empty exactly from six characters on |
| `Validation.IsFormValid` | frontend/src/utils/validation.ts:87-89 | true exactly when neither error helper reports an error |
| `Registration.MatchesLooseEmailRegexIffShape` | frontend/src/components/auth/Register.tsx:58 | the direct check accepts exactly the strings the form's email pattern describes |
| `Registration.ValidateEmail` | frontend/src/components/auth/Register.tsx:57-62 | "Email is required" when empty; for a non-empty email, no message exactly when the pattern matches and the invalid-email message otherwise |
| `Registration.LoginEmailPassesRegistration` | frontend/src/components/auth/Register.tsx:57-62 | every email the login check accepts passes the registration check |
| `Registration.RegistrationEmailLooser` | frontend/src/components/auth/Register.tsx:58 | "a@b.c" passes registration but not the login check |
| `Registration.ValidatePassword` | frontend/src/components/auth/Register.tsx:64-72 | the first failing rule's message in the order required, length 8, lower, upper, digit, special; no message exactly when all hold |
| `Registration.RegistrationPasswordPassesLogin` | frontend/src/components/auth/Register.tsx:64-72 | a password registration accepts passes the login form's check |
| `Registration.ValidateConfirmPassword` | frontend/src/components/auth/Register.tsx:74-78 | no message exactly when the confirmation is non-empty and equals the password; the two messages otherwise |
| `Registration.ValidateName` | frontend/src/components/auth/Register.tsx:80-85 | no message exactly for 2 to 50 characters, so 50 passes despite "less than 50" |
| `Registration.NoErrorsIffSubmittable` | frontend/src/components/auth/Register.tsx:87-98 | no validator reports a message exactly when all field rules hold together |
| `Registration.AnyReported` | frontend/src/components/auth/Register.tsx:97 | true exactly when some value is present |
| `Registration.RegisterForm.constructor` | frontend/src/components/auth/Register.tsx:44-51 | empty fields and no error messages |
| `Registration.RegisterForm.ValidateForm` | frontend/src/components/auth/Register.tsx:87-98 | stores each validator's message, leaves the data alone, and answers true exactly when no message was stored, that is, when the data may be submitted |
| `Environment.OrElse` | frontend/src/config/environment.ts:41 | a set variable's value, else the fallback; never empty with a non-empty fallback |
| `Environment.Flag` | frontend/src/config/environment.ts:66-69 | a set override decides by being "true"; otherwise the default |
| `Environment.ResolveApiUrl` | frontend/src/config/environment.ts:40-53 | the override, else the production URL exactly for NODE_ENV "production" and the local one otherwise; never empty |
| `Environment.ResolveEnvironment` | frontend/src/config/environment.ts:58-60 | REACT_APP_ENV, else NODE_ENV, else "development"; never empty |
| `Environment.ResolveUseProxy` | frontend/src/config/environment.ts:65-70 | the override, else whether NODE_ENV is "development" |
| `Environment.ResolveDebug` | frontend/src/config/environment.ts:75-80 | the override, else whether NODE_ENV is "development" |
| `Environment.ResolveLogLevel` | frontend/src/config/environment.ts:85-87 | REACT_APP_LOG_LEVEL when set, else "debug" in the development environment and "error" elsewhere |
| `Environment.ResolveEnableHotReload` | frontend/src/config/environment.ts:92-97 | the override, else whether the resolved environment is "development" |
| `Environment.ResolveBackendUrl` | frontend/src/config/environment.ts:102-104 | REACT_APP_BACKEND_URL when set, else the resolved API URL; never empty |
| `Environment.ResolveNginxConfig` | frontend/src/config/environment.ts:109-111 | REACT_APP_NGINX_CONFIG when set, else "dev" in the development environment and "prod" elsewhere |
| `Environment.BuildConfig` | frontend/src/config/environment.ts:22-35 | timeout 30000, three retries, non-empty URLs and names, the backend URL defaulting to the API URL |
| `Environment.DefaultsFollowEnvironment` | frontend/src/config/environment.ts:85-111 | without overrides, log level, hot reload and nginx all follow the resolved environment together |
| `Environment.EmptyEnvironmentIsLocalDevelopment` | frontend/src/config/environment.ts:22-111 | with nothing set, the local development configuration |
| `Environment.DebugAndHotReloadDiverge` | frontend/src/config/environment.ts:75-97 | REACT_APP_ENV "development" over NODE_ENV "production" turns hot reload on but debug and the proxy off, with the production URL |
| `Environment.EnvironmentConfiguration.constructor` | frontend/src/config/environment.ts:22-35 | the stored configuration is the one resolved from the environment |
| `Environment.EnvironmentConfiguration.GetConfig` | frontend/src/config/environment.ts:116-118 | a copy equal to the stored configuration; being a value, changing it cannot reach the stored one |
| `Environment.EnvironmentConfiguration.IsProduction` | frontend/src/config/environment.ts:151-153 | true exactly for the production environment |
| `Environment.EnvironmentConfiguration.IsDevelopment` | frontend/src/config/environment.ts:158-160 | true exactly for the development environment, and never together with production |
| `Consistency.ChatSectionMatchesEndpoint` | backend/src/main/java/com/chatbot/service/ChatService.java:314-338 | for the number the chat extracts, the chat shows the block exactly when the endpoint returns the order, the access-denied line for 403, the not-found line for 404, and an exception for 400 |
| `Consistency.ExtractedStatusIsValid` | backend/src/main/java/com/chatbot/controller/OrderController.java:356-361 | every status the chat extracts passes the endpoint's status check |
| `Consistency.DummyNumberNotToken` | backend/src/main/java/com/chatbot/service/AuthService.java:84 | a number with a second hyphen after the padded id is not an order number to the chat |
| `Consistency.DummyNumbersNeverExtracted` | backend/src/main/java/com/chatbot/service/ChatService.java:405 | none of the three sample order numbers is ever extracted from a message |

## Left out

- The language-model calls (embedding and chat completion) are function parameters. `None` stands for the exception each may throw. The model name, token limit and temperature of the request are not modelled.
- The vector similarity search and its SQL are a function parameter that returns rows. Bootstrapping the knowledge base from JSON files is not modelled.
- JWT signing and parsing, the security filter and BCrypt are parameters of the services: the token parser, `encode`/`matches` and the token generator.
- Rate limiting and the HTTP request validation in the chat controller are not modelled. Rate limiting is concurrent library code.
- Saving the conversation after a reply (`saveConversation`, with its random session id) is not modelled. It is a side effect after the reply is fixed. Its own try/catch logs and swallows any failure, so the reply is unaffected.
- Clock readings are parameters: the store's current date and `now` for tracking and registration. Timestamps are integers, and `LocalDateTime.toString` is rendered as the integer's decimal digits.
- Chat.Confidence: the `Double` score is held in hundredths (0.8 is 80), so floating-point rounding is not modelled.
- Order amounts are whole cents, and "%.2f" renders cents. The nullable `totalAmount` and `shippingAddress` columns are always present in the model, so the "null" that String.format would render for a missing value in the chat's order lines and order block is not modelled.
- Orders.FindByOrderNumberContaining: `%` and `_` inside the searched text act as LIKE wildcards in the database. The model treats them as plain characters.
- Orders.SortNewestFirst: `List.sort` works in place. The model sorts a sequence value with a stable insertion sort, so updating in place and aliasing are not modelled.
- The repository's `findByStatus`, the endpoint `getMyRecentOrders` and the service's `findByEmail` are not modelled. None of them is among the operations modelled here.
- The chat's fallback prompt `createSystemPrompt` is not modelled; only the retrieval-augmented prompt is used. The prompt's fixed wording is the constant `ChatTemplate`, and the proofs hold for any template.
- Text.Lower: `toLowerCase`/`toUpperCase` map ASCII letters only, and other characters keep their case.
- Chat.Confidence: Java's `length()` counts UTF-16 code units and the model counts characters, so a reply of 11 characters outside the Basic Multilingual Plane (22 code units) gets the +0.10 in Java but not in the model. JavaScript's `length` in the frontend validators differs from the model in the same way.
- The customer's creation and update dates (set by its pre-persist hook) are not modelled.
- Auth.AuthService.CreateCustomer: the argument is assumed to carry no id, so a new row gets the next id of the identity sequence. With a preset id, `save` would merge into the existing row with that id; that path is not modelled.
- The trivial getters of the environment configuration (`getApiUrl` and the rest), `logConfig` and the form's `handleInputChange` are not modelled. They return fields of the record or touch the console and UI state.
- The frontend UI and network code are not modelled: pages, contexts, axios services and local storage.
