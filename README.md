# Cognitive front end — a Dafny model of its client-side logic

The repository is a Next.js front end for chatting with one's own PDF documents. A user signs up or signs in (with
a password or through Google/GitHub OAuth), groups PDFs into *contexts*, uploads documents into a context and
chats with it; answers stream back over a server-sent event stream and cite the passages they used.

This project models the parts of that front end that hold logic rather than markup:

- the event-stream reader `streamChat` (lib/chat-stream.ts), which splits each decoded read on `'\n'`, keeps
  `data: ` lines, ends at `[DONE]` and dispatches `response`, `sources` and `error` to callbacks — a small subset
  of the `data:` field handling of the WHATWG HTML Living Standard, section 9.2.6;
- the three token holders that nothing keeps in step: the `access_token`/`refresh_token` keys of `localStorage`
  (class `BrowserState.Browser`), the zustand auth store (`AuthStore`) and the zustand application store
  (`AppStore`);
- the authenticated HTTP client (`ApiClient`): the Bearer header of section 2.1 of RFC 6750 and the
  refresh-and-replay-once handling of a 401 answer (section 15.5.2 of RFC 9110), with its sticky `_retry` mark;
  and the plain client (`AxiosClient`), which never refreshes;
- the JWT helpers (`TokenUtils`): the three-part compact form of section 3 of RFC 7519, the base64url-to-base64
  mapping of section 5 of RFC 4648, and the `exp` NumericDate test of section 4.1.4 of RFC 7519 with a buffer;
- the auth provider and the auth API helpers (`AuthContext`, `AuthApi`), the route guard (`ProtectedRoute`), the
  sign-in, sign-up and OAuth callback pages (`LoginPage`, `SignupPage`, `OAuthCallback`);
- the chat transcripts of the `useChat` hook (`UseChat`) and of the chat panel (`ChatInterface`): optimistic
  appends, chunks folded into the assistant placeholder, and rollback;
- the upload queue (`FileUpload`), the create-context dialog (`CreateContextModal`), the document list
  (`DocumentList`), the dashboard (`Dashboard`), the breadcrumb trail (`Breadcrumb`), the layout's auth-page
  test and sidebar toggles (`LayoutWrapper`), and the upload endpoint's progress percentage (`DocumentApi`).

Every module corresponds to one source file; `Base`, `Strings`, `JsonValues`, `Lists`, `Http`, `BrowserState`
and `Types` hold the shared vocabulary (options and results, JavaScript string and array operations, parsed JSON
values with JavaScript truthiness, `??` and `String()`, HTTP responses and errors, `localStorage` with the
navigation log, and the records of lib/types.ts).

Code that changes state step by step is modelled as classes whose methods say what the new state is; pure
selection logic (error messages, badges, paths, percentages) is modelled as functions with lemmas about them.
Everything the program receives from outside is a parameter: each backend answer (`Result` of a response or a
failure), the chunks a stream delivers, `JSON.parse` and `atob` as partial functions, `encodeURIComponent` as a
function, the answer of a `confirm` dialog, and the clock (`now`).

## Model

| member | source | states |
|---|---|---|
| ChatStream.StreamChat | lib/chat-stream.ts:31-67 | the read loop makes exactly the callback invocations of the stream's reference trace `StreamTrace`: each read split on `'\n'` by itself, lines in order, reads in order, and nothing after `[DONE]` |
| ChatStream.ProcessLines | lib/chat-stream.ts:45-66 | the per-read `for` loop fires exactly the invocations of the folded line trace and reports whether it met `[DONE]` |
| ChatStream.DispatchPayload | lib/chat-stream.ts:51-64 | a parsed payload calls `onChunk`, `onSources`, `onError` for truthy `response`, `sources`, `error`, in that order, until one callback throws |
| ChatStream.LineTrace | lib/chat-stream.ts:46-61 | a line stops the stream exactly when it starts with `data: ` and its payload trims to `[DONE]`; a payload with an `error` field, or any other line, lets the stream go on |
| ChatStream.StreamTrace | lib/chat-stream.ts:31-67 | no body: no invocation and no stop; a body: the received chunks, then the empty chunk of the final `done` read, run one after another |
| ChatStream.Candidates | lib/chat-stream.ts:53-61 | a payload calls for at most three callbacks |
| ChatStream.UntilThrow | lib/chat-stream.ts:51-64 | the invocations made are a prefix of those called for; all of them when none throws; only the last may throw, and a shortened run ends in a throw |
| ChatStream.UntilThrowStep | lib/chat-stream.ts:53-61 | one optional callback, then the rest unless it threw |
| ChatStream.UntilThrowThree | lib/chat-stream.ts:53-61 | three optional callbacks are made in order, each only if none before it threw |
| ChatStream.ThenAssociative | lib/chat-stream.ts:39-67 | sequencing traces is associative |
| ChatStream.FoldConcat | lib/chat-stream.ts:39-67 | running over `a + b` is running over `a`, then over `b` unless `a` stopped |
| ChatStream.FoldSkip | lib/chat-stream.ts:45-66 | a silent, non-stopping step can be removed wherever it occurs |
| ChatStream.FoldStops | lib/chat-stream.ts:48-50 | nothing after a stopping step contributes |
| ChatStream.FoldNeverStops | lib/chat-stream.ts:39-67 | without a stopping step the run never stops |
| ChatStream.FoldAdvance | lib/chat-stream.ts:39-67 | one more read either extends the run or ends all of it |
| ChatStream.NoBodyNoCallbacks | lib/chat-stream.ts:31-33 | with no response body no callback is ever called |
| ChatStream.FinalReadSilent | lib/chat-stream.ts:40-43 | the final `done` read, which decodes to the empty string, adds nothing |
| ChatStream.NonDataLineIgnored | lib/chat-stream.ts:46 | a line not starting with exactly `data: ` is ignored wherever it appears |
| ChatStream.UnparsableLineIgnored | lib/chat-stream.ts:51-64 | a payload that does not parse is skipped and the next line is processed |
| ChatStream.DoneEndsLines | lib/chat-stream.ts:48-50 | a `[DONE]` line ends the read: no later line of it fires |
| ChatStream.DoneEndsReads | lib/chat-stream.ts:48-50 | a read that met `[DONE]` ends the stream: no later read fires |
| ChatStream.ReadsInOrder | lib/chat-stream.ts:39-45 | the invocations of `a + b` are those of `a` followed by those of `b` |
| ChatStream.WithoutDoneRunsToEnd | lib/chat-stream.ts:39-67 | without a `[DONE]` line the loop runs to the end of input and returns normally |
| ChatStream.EmptyResponseFiresNothing | lib/chat-stream.ts:53-55 | an empty `response` string fires no `onChunk` |
| ChatStream.DispatchIndependent | lib/chat-stream.ts:53-61 | with callbacks that do not throw, the three callbacks fire independently, and `onError` fires iff `error` is truthy |
| ChatStream.SplitLineNotReassembled | lib/chat-stream.ts:42-45 | a `data: ` line cut across two reads fires nothing, while the same line in one read is dispatched |
| ChatStream.AllLinesSilent | lib/chat-stream.ts:46 | a read without any `data: ` line fires nothing |
| ChatStream.BuildRequest | lib/chat-stream.ts:17-28 | the POST goes to `<API_URL>/api/chat/<contextId>` with `Bearer <auth-store token>` (the text `null` when signed out) and the body `{message}` only |
| ApiClient.ApiClient.AttachToken | lib/apiClient.ts:15-24 | the request's headers become `WithToken` of the guarded `access_token`; `_retry` is untouched |
| ApiClient.WithToken | lib/apiClient.ts:17-20 | `Authorization: Bearer <token>` is added iff the token is present and non-empty; all other headers are kept |
| ApiClient.ApiClient.Transmit | lib/apiClient.ts:65 | a round trip records the headers sent and hands back the backend's answer |
| ApiClient.ApiClient.Request | lib/apiClient.ts:15-79 | one or two requests reach the backend, the first with the attached token; two only with a refresh; success and every error but a first 401 pass through with storage and navigation untouched; the answer, the new storage and the added navigations are exactly `Outcome`, `StorageAfter` and `NavigationsAfter` |
| ApiClient.Outcome | lib/apiClient.ts:33-79 | the request resolves only with the first answer or, after a renewal, with the replay's answer; anything but a first 401 is handed through as it is; a forced logout always rejects |
| ApiClient.StorageAfter | lib/apiClient.ts:33-79 | only the two token keys can change, and only on a first 401 in a window: a forced logout removes both, a renewal stores the refresh answer's tokens |
| ApiClient.NavigationsAfter | lib/apiClient.ts:33-79 | at most one navigation, to `/login`, none unless a first 401 in a window, and only together with both keys removed |
| ApiClient.PassThrough | lib/apiClient.ts:27-79 | anything but a first 401 is handed back as it came, with storage and navigation unchanged |
| ApiClient.LoginRedirectOnlyWhenLoggedOut | lib/apiClient.ts:36-74 | the interceptor navigates only to `/login`, only with both keys removed and the request rejected; a request that resolves never navigates |
| ApiClient.ResolvedRequest | lib/apiClient.ts:28-65 | a request that resolves did so on its first answer with storage unchanged, or through the replay after a refresh that stored its new access token |
| ApiClient.OtherKeysKept | lib/apiClient.ts:36-74 | whatever the interceptor does, the storage keys other than the two tokens are as they were |
| ApiClient.ApiClient.OnError | lib/apiClient.ts:27-79 | only a 401 on a request without `_retry` refreshes; `_retry` is set first, so the replay is never refreshed again; no refresh token clears both keys, goes to `/login` and rejects the original error with no refresh call; a failed refresh clears both keys, goes to `/login` and rejects with the refresh error; a successful refresh stores the new tokens and replays once with the new token, and a failed replay clears nothing |
| ApiClient.ApiClient.StoreRenewal | lib/apiClient.ts:53-59 | storage becomes `Renewed` of the refresh answer; no navigation |
| ApiClient.Renewed | lib/apiClient.ts:53-59 | `access_token` is overwritten; `refresh_token` only when the answer holds a truthy one; every other key is kept |
| ApiClient.ResponseData | lib/apiClient.ts:27-79 | `err.response?.data` exists exactly for a rejection that carries a response, and is that response's body |
| ApiClient.Status | lib/apiClient.ts:33 | `err.response?.status` is the status of the response, when there is one |
| ApiClient.Detail | hooks/useChat.ts:42 | whenever there is an error body, `err.response?.data?.detail` is its `detail` field; without a body there is none |
| ApiClient.DetailOr | components/FileUpload.tsx:110 | the `detail` text when it is truthy, else the fallback |
| ApiClient.ErrorText | hooks/useChat.ts:42 | `detail`, else `err.message`, else the fallback |
| ApiClient.ApiClient.constructor | lib/apiClient.ts:6-12 | a new client has sent nothing and refreshed nothing |
| AxiosClient.BaseUrl | lib/axiosClient.ts:3-7 | the base URL is the API URL followed by `/api` |
| AxiosClient.PlainClient.AttachToken | lib/axiosClient.ts:14-30 | a present token gives `Authorization: Bearer <token>`, creating the header object when it is missing; otherwise the config is unchanged |
| AxiosClient.PlainClient.Request | lib/axiosClient.ts:14-43 | the answer, success or error (401 included), is handed back unchanged, with no refresh, retry or storage change |
| AxiosClient.PlainClient.constructor | lib/axiosClient.ts:6-11 | the client reads the given browser's storage |
| AuthStore.AuthStore.SetAuth | lib/auth-store.ts:23-41 | `token`, `user`, and `refreshToken` (null when omitted) are set; `refresh_token` is written to storage only when non-empty and never removed here |
| AuthStore.AuthStore.SetAccessToken | lib/auth-store.ts:42-44 | only `token` changes, so the persisted snapshot does not |
| AuthStore.AuthStore.ClearAuth | lib/auth-store.ts:45-53 | all three fields become null and storage loses `refresh_token`; without a window the fields still change |
| AuthStore.AuthStore.IsAuthenticated | lib/auth-store.ts:54-57 | signed in iff the store's token is present and non-empty |
| AuthStore.AuthStore.Persisted | lib/auth-store.ts:62 | the persisted snapshot holds `refreshToken` and `user`, never `token` |
| AuthStore.AuthStore.constructor | lib/auth-store.ts:20-22 | the store starts signed out |
| AppStore.AppStore.SetAuth | lib/app-store.ts:64 | `token`, `refreshToken`, `user` are set and `isAuthenticated` iff the token is non-empty; nothing else changes |
| AppStore.AppStore.ClearAuth | lib/app-store.ts:65 | the auth fields are nulled, `isAuthenticated` is false, every other field is untouched |
| AppStore.AppStore.SetContexts | lib/app-store.ts:66 | only `contexts` changes |
| AppStore.AppStore.SetCurrentContext | lib/app-store.ts:67 | only `currentContext` changes |
| AppStore.AppStore.AddContext | lib/app-store.ts:68 | the context is appended at the end; only `contexts` changes |
| AppStore.AppStore.UpdateContext | lib/app-store.ts:69-72 | every context with the id is replaced, length and order kept |
| AppStore.AppStore.DeleteContext | lib/app-store.ts:73-74 | every context with the id is removed |
| AppStore.AppStore.SetDocuments | lib/app-store.ts:75 | only `documents` changes |
| AppStore.AppStore.AddDocument | lib/app-store.ts:76 | the document is appended at the end |
| AppStore.AppStore.DeleteDocument | lib/app-store.ts:77-78 | every document with the id is removed |
| AppStore.AppStore.SetMessages | lib/app-store.ts:79 | only `messages` changes |
| AppStore.AppStore.AddMessage | lib/app-store.ts:80 | the message is appended at the end |
| AppStore.AppStore.ClearHistory | lib/app-store.ts:81 | only `messages` is emptied |
| AppStore.AppStore.SetStreaming | lib/app-store.ts:82 | only `isStreaming` changes |
| AppStore.AppStore.SetLoading | lib/app-store.ts:83 | only `isLoading` changes |
| AppStore.AppStore.SetError | lib/app-store.ts:84 | only `error` changes |
| AppStore.AppStore.constructor | lib/app-store.ts:50-61 | the store starts in its initial state |
| AppStore.WithoutContext | lib/app-store.ts:74 | a context survives iff it was there and has another id |
| AppStore.WithoutDocument | lib/app-store.ts:78 | a document survives iff it was there and has another id |
| AppStore.WithoutContextIdempotent | lib/app-store.ts:73-74 | deleting an id twice removes nothing more |
| AppStore.WithoutContextConcat | lib/app-store.ts:73-74 | deletion keeps the order of the rest: it distributes over concatenation |
| AppStore.WithoutAbsentContext | lib/app-store.ts:73-74 | deleting an id nobody carries changes nothing |
| TokenUtils.DecodeJwt | lib/token-utils.ts:9-23 | no payload unless the token has exactly three `.`-separated parts; with three parts, no payload when `atob` rejects the mapped middle part, and otherwise exactly what `JSON.parse` gives for its decoding |
| TokenUtils.IsTokenExpired | lib/token-utils.ts:31-49 | expired without a usable `exp` claim; a NaN claim is never expired; a numeric claim is expired iff `now + buffer * 1000 >= exp * 1000` |
| TokenUtils.FromBase64Url | lib/token-utils.ts:17 | `-` becomes `+`, `_` becomes `/`, every other character is kept |
| TokenUtils.ExpClaim | lib/token-utils.ts:32-40 | a claim is truthy; a null or empty token has none |
| TokenUtils.GetTokenExpiration | lib/token-utils.ts:54-65 | null exactly in the early-return cases of `isTokenExpired` |
| TokenUtils.ExpiredIffByExpiration | lib/token-utils.ts:31-65 | expired iff the expiration is null or a number at most `now + buffer*1000`; a NaN expiration never expires |
| TokenUtils.UnusableTokensExpired | lib/token-utils.ts:11-14 | null, empty and non-three-part tokens are expired for every buffer and have no expiration |
| TokenUtils.ExpiryMonotoneInBuffer | lib/token-utils.ts:48 | expired at buffer b implies expired at every larger buffer |
| TokenUtils.NumericExpiry | lib/token-utils.ts:43-48 | for a numeric `exp`, expired iff `now + buffer*1000 >= exp*1000` (equality counts), expiration `exp*1000` |
| TokenUtils.NonNumericExpiryNeverExpires | lib/token-utils.ts:43-48 | an object `exp` converts to NaN, so such a token is never expired |
| AuthContext.AuthProvider.InitializeAuth | contexts/AuthContext.tsx:33-51 | without a stored token nothing but loading changes; with one, `/auth/me` goes through the client: a resolved call adopts the token read before the call (even when the interceptor stored a renewed one) and leaves the interceptor's storage; a rejection removes both keys; the interceptor's navigations are kept; loading ends false either way |
| AuthContext.AuthProvider.IsAuthenticated | contexts/AuthContext.tsx:84 | signed in iff the in-memory token is present and non-empty |
| AuthContext.AuthProvider.Login | contexts/AuthContext.tsx:56-73 | both keys and the token are written before `/auth/me` goes through the client; a resolved fetch sets the user and leaves the interceptor's storage; a rejected one logs out, after any navigation of the interceptor, so a failed refresh navigates to `/login` twice |
| AuthContext.AuthProvider.FetchUser | contexts/AuthContext.tsx:62-70 | a resolved `/auth/me` sets the user and keeps the interceptor's storage and navigation; a rejected one clears both keys and the state and adds `/login` after the interceptor's navigations |
| AuthContext.AuthProvider.Logout | contexts/AuthContext.tsx:75-81 | both keys go, user and token become null, and the page goes to `/login` |
| AuthContext.AuthProvider.ProtectedRouteEffect | contexts/AuthContext.tsx:116-120 | one navigation to `/login` iff not loading and not authenticated |
| AuthContext.AuthProvider.RouteView | contexts/AuthContext.tsx:122-126 | the children iff loading is over and somebody is signed in; otherwise the `Loading...` placeholder |
| AuthContext.RouteOutcomes | contexts/AuthContext.tsx:112-127 | the three cases: loading gives the placeholder and no redirect; signed out gives the placeholder and a redirect to `/login`; signed in gives the children and no redirect |
| AuthContext.UseAuth | contexts/AuthContext.tsx:99-105 | outside a provider the hook throws its message; inside it returns the provider's value |
| AuthContext.AuthProvider.constructor | contexts/AuthContext.tsx:26-28 | the provider starts without user or token, loading |
| AuthApi.GetOAuthUrl | lib/api/authAPI.ts:32-34 | a fixed prefix followed by the provider name |
| AuthApi.OAuthUrlsDistinct | lib/api/authAPI.ts:32-34 | different providers get different URLs |
| AuthApi.RefreshBody | lib/api/authAPI.ts:38 | the posted body is exactly `{refresh_token}` |
| AuthApi.RefreshToken | lib/api/authAPI.ts:37-40 | posts `{refresh_token}` to `/auth/refresh` and returns the body unchanged, or the failure |
| AuthApi.GetStoredTokens | lib/api/authAPI.ts:79-87 | both null without a window, otherwise the two stored keys |
| AuthApi.StoreTokens | lib/api/authAPI.ts:65-70 | afterwards `getStoredTokens` returns the same pair |
| AuthApi.ClearTokens | lib/api/authAPI.ts:72-77 | afterwards `getStoredTokens` returns both null |
| AuthApi.Logout | lib/api/authAPI.ts:42-52 | the call goes through the client and the body it sends is `{refresh_token}`; both keys are removed whatever the outcome, a rejection still propagates, and the interceptor's navigation to `/login` is kept |
| BrowserState.Browser.GetItem | lib/apiClient.ts:37 | present iff the key is stored, with the stored value |
| BrowserState.Browser.GuardedItem | lib/apiClient.ts:17 | null without a window, otherwise `getItem` |
| BrowserState.Browser.SetItem | lib/api/authAPI.ts:67 | only that key changes |
| BrowserState.Browser.RemoveItem | lib/auth-store.ts:48 | only that key goes |
| BrowserState.Browser.RemoveTokens | lib/apiClient.ts:41-42 | both token keys go, every other key stays |
| BrowserState.Browser.Navigate | lib/apiClient.ts:43 | the target is appended to the navigation log; storage is untouched |
| BrowserState.WithoutTokens | lib/api/authAPI.ts:72-77 | neither token key remains; every other key and value is kept |
| BrowserState.Browser.constructor | lib/apiClient.ts:17 | a browser with the given storage and no navigations |
| Http.ApiUrl | lib/apiClient.ts:3 | the environment value when set and non-empty, else `http://localhost:8000` |
| Http.Bearer | lib/apiClient.ts:19 | the credential starts with the seven characters `Bearer ` and the rest is the token |
| Http.RequestConfig.constructor | lib/apiClient.ts:30-34 | a new request has no `_retry` mark |
| Types.StatusNamesDistinct | lib/types.ts:52-57 | the four status wire names are pairwise distinct |
| UseChat.ChatSession.FetchHistory | hooks/useChat.ts:13-51 | no context: loading ends and nothing else changes; success: the normalised history with the error cleared; a `null` item or a failure: `[]` with the error set; loading false afterwards |
| UseChat.NormaliseItem | hooks/useChat.ts:30-35 | `role` defaults to `assistant`, `content` to empty, `timestamp` to now; sources kept iff truthy |
| UseChat.NormaliseEncode | hooks/useChat.ts:30-35 | a message with a role and timestamp survives encoding and normalisation |
| UseChat.FormatHistory | hooks/useChat.ts:29-36 | a non-array is `[]`, an array is normalised element by element, a `null` item throws |
| UseChat.Envelope | lib/api.ts:42-43 | the resolved value is the whole response, with the body under `data` |
| UseChat.HistoryAsWritten | hooks/useChat.ts:25-36 | as written, every history loads as empty |
| UseChat.History | hooks/useChat.ts:29-36 | the body's items, normalised one by one; `[]` for a non-array; a throw for a `null` item |
| UseChat.HistoryDiscrepancy | hooks/useChat.ts:25-36 | a one-message history is kept by the corrected reading and dropped by the written one |
| UseChat.HistoryRoundTrip | hooks/useChat.ts:29-36 | every well-formed history comes back as it was sent |
| UseChat.ChatSession.SendAllowed | hooks/useChat.ts:55 | a message goes out iff its trimmed text is non-empty, a context is selected and no stream is active |
| UseChat.ChatSession.SendMessage | hooks/useChat.ts:54-157 | a no-op for blank text, no context, or an active stream; otherwise exactly two messages are appended (trimmed user message, placeholder folded with every callback) and the error is that of the last `onError`; a throw drops both, sets and rethrows the error; never streaming afterwards |
| UseChat.ChatSession.ReceiveChunk | hooks/useChat.ts:101-112 | the chunk is appended to the last message only if it is an assistant message |
| UseChat.ChatSession.ReceiveSources | hooks/useChat.ts:114-125 | the last assistant message's sources are overwritten |
| UseChat.ChatSession.ReceiveError | hooks/useChat.ts:126-138 | the error is set and the last assistant message's content becomes `Error: <msg>` |
| UseChat.ChatSession.ClearChat | hooks/useChat.ts:160-174 | messages and error are cleared only on success; a failure keeps the messages, sets the error to `detail`, then `message`, then the default, and rethrows the failure itself |
| UseChat.ChatSession.constructor | hooks/useChat.ts:7-10 | no messages, loading, no error, not streaming |
| UseChat.Absorb | hooks/useChat.ts:101-138 | a callback never changes the message's role or timestamp |
| UseChat.AbsorbAll | hooks/useChat.ts:101-138 | neither does a run of callbacks |
| UseChat.ChunksConcatenate | hooks/useChat.ts:105-112 | the content ends as the original content followed by every chunk, in order |
| UseChat.ErrorReplacesContent | hooks/useChat.ts:130-137 | an `onError` replaces whatever the chunks wrote; later chunks append to the error text |
| UseChat.AbsorbAllConcat | hooks/useChat.ts:101-138 | absorbing `a + b` is absorbing `a`, then `b` |
| UseChat.LastSourcesWin | hooks/useChat.ts:117-124 | the sources are those of the last `onSources` |
| ChatInterface.ChatPanel.HandleSend | components/ChatInterface.tsx:34-81 | a no-op for blank input or while loading; otherwise the input is cleared and the backend gets the trimmed text and the history before it; a string answer gives prior + user + assistant and passes the sources on; anything else restores the prior list without a sources call; never loading afterwards |
| ChatInterface.ChatPanel.SendAllowed | components/ChatInterface.tsx:35 | a send goes ahead iff the trimmed input is non-empty and no answer is loading |
| ChatInterface.ChatPanel.HandleKeyPress | components/ChatInterface.tsx:83-88 | Enter without Shift does exactly what `handleSend()` does: no-op when sending is not allowed, else the request, the cleared input, and the transcript and sources of the answer; every other key does nothing |
| ChatInterface.AnswerText | components/ChatInterface.tsx:49-51 | an answer exists iff the reply succeeded with a string `response` |
| ChatInterface.ChatPanel.SetInput | components/ChatInterface.tsx:21 | only the input changes |
| ChatInterface.ChatPanel.constructor | components/ChatInterface.tsx:20-22 | empty transcript and input, not loading |
| FileUpload.FileUploader.OnDrop | components/FileUpload.tsx:42-59 | one `onError` per refused file, in order, then the queue is the old rows plus the new ones cut to `maxFiles` |
| FileUpload.FileUploader.RemoveFile | components/FileUpload.tsx:68-70 | exactly index i is deleted, the rest keep their order |
| FileUpload.FileUploader.RetryUpload | components/FileUpload.tsx:72-78 | only index i is reset to Pending, progress 0, no error |
| FileUpload.FileUploader.HandleUpload | components/FileUpload.tsx:80-129 | no context: one error, nothing else; no Pending row: nothing; otherwise the rows are started, each pending upload settles, the settled rows are merged back, each failure reports its text, and the successful ids go out in pending order if there is at least one |
| FileUpload.FileUploader.constructor | components/FileUpload.tsx:37-40 | an empty queue with the given limit |
| FileUpload.FileUploader.WithDefaultLimit | components/FileUpload.tsx:37 | an empty queue whose limit is the default of 15 files |
| FileUpload.NewEntries | components/FileUpload.tsx:44-48 | each new row is Pending at progress 0 |
| FileUpload.Dropped | components/FileUpload.tsx:56 | a prefix of old + new rows, of length `min(total, maxFiles)` |
| FileUpload.DropKeepsExisting | components/FileUpload.tsx:56 | existing rows win: while they fit, all of them stay in front |
| FileUpload.RejectionMessages | components/FileUpload.tsx:51-54 | one message per refused file: `Failed to add <name>: ` and its messages joined by `, ` |
| FileUpload.Retried | components/FileUpload.tsx:73-77 | only the retried row changes |
| FileUpload.Started | components/FileUpload.tsx:89-93 | every Pending row becomes Uploading, the rest stay |
| FileUpload.Settle | components/FileUpload.tsx:95-114 | Success with the answer's `document_id` when the body is not `null`; a `null` body throws on `response.document_id` and gives Error `Upload failed`; a rejection gives Error with the `detail` text or `Upload failed`; the captured row's progress is kept |
| FileUpload.FindSettled | components/FileUpload.tsx:120 | the settled row for the same file, or none iff no settled row has that file |
| FileUpload.FindSettledFirst | components/FileUpload.tsx:120 | the row found is the first settled row with that file, as `Array.prototype.find` returns |
| FileUpload.Merge | components/FileUpload.tsx:118-123 | each row whose file was uploaded is replaced by its settled copy, the others stay |
| FileUpload.SuccessfulIds | components/FileUpload.tsx:125-127 | every id passed on comes from a successful row with a truthy id |
| FileUpload.SuccessfulIdsInOrder | components/FileUpload.tsx:125-127 | the ids are exactly those of the successful rows with a truthy id, in queue order (filter, then map) |
| FileUpload.DeliveredIdsHandedOn | components/FileUpload.tsx:125-127 | every successful row with a truthy id has its id passed on |
| FileUpload.UploadDisabled | components/FileUpload.tsx:169 | the upload button is disabled iff no row is Pending |
| FileUpload.UploadDisabledIffNothingPending | components/FileUpload.tsx:169 | the button is disabled iff no row is Pending |
| FileUpload.PendingRowsSettle | components/FileUpload.tsx:86-123 | after the upload no row that was Pending is Pending or Uploading |
| FileUpload.OtherRowsUntouched | components/FileUpload.tsx:118-123 | rows whose file was not uploaded come out of the merge unchanged |
| FileUpload.FailureTextsSnoc | components/FileUpload.tsx:110-111 | each failed upload adds its text to the `onError` calls, in order |
| CreateContextModal.CreateContextForm.OnDrop | components/CreateContextModal.tsx:32-56 | only the first file is looked at; a refused file sets the error and leaves the file; an accepted one is set, the error cleared, and an empty name becomes the file name without its first `.pdf` |
| CreateContextModal.DropError | components/CreateContextModal.tsx:36-45 | the type is checked before the size; exactly 10 MiB is accepted |
| CreateContextModal.AutoNameStripsExtension | components/CreateContextModal.tsx:52 | a name ending in its only `.pdf` loses exactly that extension |
| CreateContextModal.SubmitError | components/CreateContextModal.tsx:70-78 | a blank name is reported before a missing file |
| CreateContextModal.SubmitDisabledIffInvalid | components/CreateContextModal.tsx:198 | out of loading, the button is disabled iff a submit would fail validation |
| CreateContextModal.CreateContextForm.HandleSubmit | components/CreateContextModal.tsx:67-108 | invalid input sends nothing; otherwise the trimmed name and the file are sent; success resets the form, calls `onSuccess` and closes the dialog; a failure shows `detail` or the default; never loading afterwards |
| CreateContextModal.CreateContextForm.RemoveFile | components/CreateContextModal.tsx:110-113 | the file and the error are cleared |
| CreateContextModal.CreateContextForm.SetName | components/CreateContextModal.tsx:26 | only the name changes |
| CreateContextModal.CreateContextForm.constructor | components/CreateContextModal.tsx:26-29 | empty form, not loading |
| DocumentList.FilteredDocuments | components/DocumentList.tsx:62-64 | a document is shown iff its lower-cased file name contains the lower-cased query |
| DocumentList.EmptyQueryShowsAll | components/DocumentList.tsx:62-64 | an empty query shows every document in order |
| DocumentList.SearchIgnoresQueryCase | components/DocumentList.tsx:63 | the query's case does not matter |
| DocumentList.StatusBadge | components/DocumentList.tsx:66-79 | each of the four wire names gets its badge; anything else is Unknown |
| DocumentList.DocumentListView.FetchDocuments | components/DocumentList.tsx:23-36 | success replaces the list, failure keeps it; loading ends either way |
| DocumentList.DocumentListView.HandleDeleteDocument | components/DocumentList.tsx:42-60 | the confirm prompt is shown once; the backend is called iff confirmed; only a confirmed success removes the documents with the id |
| DocumentList.DocumentListView.Visible | components/DocumentList.tsx:62-64 | the rows on screen are exactly the documents matching the search query |
| DocumentList.DocumentListView.SetSearchQuery | components/DocumentList.tsx:20 | only the query changes |
| DocumentList.DocumentListView.constructor | components/DocumentList.tsx:18-20 | no documents, loading, empty query |
| Dashboard.DashboardPage.FetchContexts | app/page.tsx:19-32 | success replaces the list, failure keeps it; loading ends either way |
| Dashboard.DashboardPage.HandleDeleteContext | app/page.tsx:36-54 | one confirm prompt; the backend is called iff confirmed; only a confirmed success removes the contexts with the id |
| Dashboard.DashboardPage.constructor | app/page.tsx:14-15 | no contexts, loading |
| Breadcrumb.Trail | components/Breadcrumb.tsx:18-46 | one crumb per segment plus Home; Home links to `/` and is followed by a separator iff a segment exists; no separator after the last crumb; only the last segment is the current page; crumb i links to `Href` |
| Breadcrumb.Segments | components/Breadcrumb.tsx:18 | segments are non-empty and hold no `/` |
| Breadcrumb.SlashSeparates | components/Breadcrumb.tsx:18 | a slash separates and adds no segment of its own |
| Breadcrumb.DoubleSlash | components/Breadcrumb.tsx:18 | repeated slashes count as one |
| Breadcrumb.HrefExtends | components/Breadcrumb.tsx:30 | each href is the previous one plus `/` and the next segment, so it extends it |
| Breadcrumb.HrefRoundTrip | components/Breadcrumb.tsx:30 | the page a crumb links to has the crumbs up to it as its own segments |
| LayoutWrapper.AuthPageExamples | components/LayoutWrapper.tsx:12-16 | the test is textual: `/login-help` and `/oauth/callback?...` are auth pages; `/`, `/documents/login` and no pathname are not |
| LayoutWrapper.AuthPagesClosedUnderExtension | components/LayoutWrapper.tsx:16 | every extension of an auth page is one |
| LayoutWrapper.Layout.ShowsDesktopSidebar | components/LayoutWrapper.tsx:16-38 | never on a sign-in page; elsewhere exactly while `desktopOpen` |
| LayoutWrapper.Layout.ToggleDesktop | components/LayoutWrapper.tsx:66 | the button flips `desktopOpen` |
| LayoutWrapper.Layout.SetOpen | components/LayoutWrapper.tsx:45 | the sheet's open state is set |
| LayoutWrapper.Layout.OnNavigate | components/LayoutWrapper.tsx:52 | navigating from the sheet closes it |
| LayoutWrapper.Layout.constructor | components/LayoutWrapper.tsx:17-18 | the sheet starts closed and the desktop sidebar shown |
| ProtectedRoute.RedirectTarget | components/ProtectedRoute.tsx:19-24 | always under `/login`; plain `/login` iff the current path is `/login`, otherwise `/login?redirect=` and the encoded path |
| ProtectedRoute.GuardEffect | components/ProtectedRoute.tsx:16-26 | one navigation, to `RedirectTarget`, iff not loading and not authenticated |
| SignupPage.SignupBody | app/signup/page.tsx:42-46 | the name trimmed, the email trimmed and lower-cased, the password as typed |
| SignupPage.SignupErrorMessage | app/signup/page.tsx:52-67 | 409 gives the conflict message; 400 uses an array `detail` (items joined by a space), a string `detail`, else the default; otherwise `detail`, then `error.message`, then the default |
| SignupPage.DetailMessages | app/signup/page.tsx:59 | computing the joined text throws iff an item is `null` |
| SignupPage.ValidationMessagesJoined | app/signup/page.tsx:59 | items with non-empty `msg` give those messages joined by a space |
| SignupPage.BadRequestWithoutUsableDetail | app/signup/page.tsx:56-62 | a 400 whose `detail` is neither an array nor a string gives the default |
| SignupPage.OAuthEndpointAgrees | app/signup/page.tsx:16-20 | the page's endpoint table agrees with the auth API's `getOAuthUrl` |
| SignupPage.SignupForm.HandleSubmit | app/signup/page.tsx:36-78 | the normalised body is posted; success goes to `/login?signup=success`; a failure shows its message; loading false afterwards |
| SignupPage.SignupForm.HandleSocialSignUp | app/signup/page.tsx:80-95 | the window goes to the provider's fixed endpoint |
| SignupPage.SignupForm.constructor | app/signup/page.tsx:29-31 | not loading, no error |
| LoginPage.ReadCredentials | app/login/page.tsx:31-35 | a `null` body throws; an answer without a truthy `refresh_token` is refused; otherwise the three fields |
| LoginPage.Description | app/login/page.tsx:49-63 | a string body as it is; an object body's first non-nullish `error`, `detail`, `message`, else the default; no body: 400/401 give "Invalid email or password.", else `error.message`, else the default |
| LoginPage.DescriptionPrecedence | app/login/page.tsx:57 | `error` wins over `detail`, which wins over the default; nulls are passed over |
| LoginPage.LoginBody | lib/api.ts:6-7 | the posted body is exactly `{email, password}` |
| LoginPage.LoginForm.HandleSubmit | app/login/page.tsx:23-74 | the credentials go through the client as `{email, password}`, whose interceptor decides storage and `/login` navigation (a wrong password with no stored refresh token clears both keys and reloads `/login`); only an answer with a refresh token reaches `setAuth(access, refresh, user)` and `/`; every other outcome leaves the store alone, does not push a route and shows one error toast; loading false afterwards |
| LoginPage.LoginForm.constructor | app/login/page.tsx:19 | not loading |
| OAuthCallback.CallbackPage.OnParams | app/oauth/callback/page.tsx:12-24 | both tokens non-empty: `setAuth(access, refresh, {})`, signed in, then `/`; otherwise `/login` without `setAuth`; exactly one navigation |
| OAuthCallback.CallbackPage.constructor | app/oauth/callback/page.tsx:8-10 | no navigation yet |
| DocumentApi.ProgressBounds | lib/document-api.ts:21-25 | for `0 <= loaded <= total`, `total > 0`, the percentage lies in [0, 100] |
| DocumentApi.ProgressEnds | lib/document-api.ts:22-24 | nothing sent is 0 and everything sent is 100 |
| DocumentApi.ProgressMonotone | lib/document-api.ts:22-24 | for a fixed total, more bytes sent never shows less |
| DocumentApi.RoundDiv | lib/document-api.ts:22 | `Math.round` of a positive-denominator quotient: halves round up |
| DocumentApi.Upload | lib/document-api.ts:10-15 | the file goes under field `file` to the upload path with the context id verbatim |
| Lists.SliceTo | hooks/useChat.ts:148 | `slice(0, end)`: a prefix; negative `end` counts from the back; past the end takes all |
| Lists.RemoveAt | components/FileUpload.tsx:69 | the element at i goes, the rest keep their order |
| Lists.ReplaceWhere | lib/app-store.ts:71 | matching elements are replaced, length and order kept |
| Lists.UpdateAt | components/FileUpload.tsx:74-76 | only index i changes |
| Lists.Filter | lib/app-store.ts:74 | the survivors are exactly the kept elements |
| Lists.FilterConcat | lib/app-store.ts:74 | filtering keeps relative order |
| Lists.FilterAll | lib/app-store.ts:74 | nothing is dropped when everything is kept |
| Lists.FilterCongruent | components/DocumentList.tsx:62-64 | two tests that agree on every element filter alike |
| Lists.FilterMultiset | lib/app-store.ts:74 | filtering never duplicates an element |
| Strings.Split | components/Breadcrumb.tsx:18 | `split` gives at least one piece |
| Strings.JoinSplit | components/Breadcrumb.tsx:18 | joining the pieces of a split gives the string back |
| Strings.SplitJoin | components/Breadcrumb.tsx:30 | splitting a join of separator-free pieces gives the pieces back |
| Strings.Lower | components/DocumentList.tsx:63 | `toLowerCase` character by character |
| Strings.LowerIdempotent | components/DocumentList.tsx:63 | lower-casing twice is lower-casing once |
| Strings.ReplaceFirst | components/CreateContextModal.tsx:52 | `replace` with a string pattern replaces its first occurrence only |
| Strings.TrimShape | app/signup/page.tsx:43 | `trim` removes exactly the leading and trailing whitespace |
| Strings.BlankIffAllWhitespace | components/ChatInterface.tsx:35 | a text trims to empty iff it is all whitespace |
| JsonValues.Get | lib/chat-stream.ts:53 | a field read finds an object's own field, and nothing on any other value |
| JsonValues.Nullish | app/login/page.tsx:57 | `a ?? b` is `a` unless it is null or undefined |
| JsonValues.StringToNumber | lib/token-utils.ts:43 | `Number()` of a string: a blank string is 0, the result is a number exactly for an optionally signed run of decimal digits (other numeric forms are admitted as NaN), and it is non-negative unless the sign is `-` |
| JsonValues.ToNumber | lib/token-utils.ts:43 | `Number()` of a value: `null` is 0, a number is itself, a string goes through `StringToNumber`, and an object is NaN |
| JsonValues.NumberOfString | lib/token-utils.ts:43 | `Number(String(n)) == n` for integers |
| JsonValues.ObjectIsNaN | lib/token-utils.ts:43 | `Number` of an object is NaN |
| Strings.ReplaceAllChar | lib/token-utils.ts:17 | a global one-character `replace`: every occurrence is replaced, nothing else changes |
| Strings.IndexFrom | components/CreateContextModal.tsx:52 | the first occurrence of the pattern at or after the start, or none iff there is no later occurrence |
| Strings.SplitPiecesFree | components/Breadcrumb.tsx:18 | no piece of a split holds the separator |

## Left out

- Network and transport: `fetch`, `reader.read`, `TextDecoder`, and every axios call are not modelled; their outcomes (a body, a status, a failure) are inputs. A multi-byte character split across two reads is decoded by `TextDecoder` in streaming mode, which the chunk sequence abstracts.
- Concurrency: `Promise.all` in the upload queue is modelled as the uploads settling one after another in pending order. React's deferred state updates are modelled as applied in call order.
- Single-flight refresh: concurrent 401s each refresh on their own in the source, and the model's requests are handled one at a time. There is no shared refresh queue and no retry policy for streams.
- Upload progress events: each `onUploadProgress` update is overwritten by the final merge, which takes the captured row, so intermediate progress values are not modelled. `DocumentApi.Progress` models the percentage itself.
- The in-place writes to `lastMsg` in `useChat` are modelled as replacing the last message by an updated copy. Aliasing between React's previous and next arrays is not modelled.
- zustand `persist` serialisation and the storage backend behind it are not modelled. Only the persisted snapshot of the auth store, `AuthStore.AuthStore.Persisted`, is modelled.
- Rendering and navigation: JSX, the toasts (except the login page's toast texts), `router.push`, `window.location` and `confirm` are values in the model, and the UI is not modelled.
- `atob`, `JSON.parse` and `encodeURIComponent` are abstract function parameters. The base64 alphabet is not modelled.
- `toLowerCase` is folded for ASCII letters only. JavaScript numbers are integers, plus NaN where a conversion can yield it (`TokenUtils`).
- react-dropzone's own `accept`, `maxSize` and `maxFiles` checks are not modelled. Its verdicts arrive as the accepted files and the rejections.
- ChatInterface.ChatPanel.HandleSend: `chatAPI.sendMessage` is not part of lib/api.ts, and the chat page passes no `onSourcesUpdate`. The model follows the component's own contract with the backend's answer as an input.
- LoginPage.LoginForm.HandleSubmit: an `access_token` or `refresh_token` that is not a string is stored as absent, because the store's fields are strings in the model.
- ApiClient.DetailOr, ApiClient.ErrorText, UseChat.NormaliseItem: a non-string `detail`, `role` or `content` is shown through its `String()` form. React would render it as an object.
- UseChat.ChatSession.SendMessage: a failure is returned as the error text the hook shows, where the source rethrows the original error object (hooks/useChat.ts:153).
- UseChat.ChatSession.SendMessage: the stream's callbacks are the invocations `streamChat` makes. Their arguments are passed on as the raw values it reads, and the text shown is their `String()` form.
- UseChat.ChatSession.FetchHistory: follows the corrected reading `UseChat.History` (the body `response.data` is normalised); the history as written, which always comes out empty, is `UseChat.HistoryAsWritten` (see Findings).
- JsonValues.StringToNumber: `Number()` of hexadecimal (`"0x10"`), exponent (`"1e3"`), fractional (`"1.5"`) and `"Infinity"` strings is NaN in the model, where JavaScript gives a number. So a token whose `exp` claim is such a string is never expired in `TokenUtils.IsTokenExpired`, though the source compares it as a number.
- ChatStream.StreamChat, ChatStream.DispatchPayload: whether a callback throws is a fixed function `throws` of the invocation. A callback whose failure depends on earlier calls (state it keeps) cannot be expressed.
- Calls made by modules other than `AuthContext`, `AuthApi.Logout` and `LoginPage` take the client's final answer as an input. For those calls the interceptor's effects on storage and navigation (a renewal or a forced logout after a 401) are not modelled.
- The `mode` argument of `sendMessage` is accepted by the hook but ignored by `streamChat`, so the model has no `mode` parameter.
- Size display with `toFixed`, locale date formatting and console logging are not modelled.
- Presentational files: the sidebar, the sources panel and the root layout are not modelled.
- `getDocuments` and `deleteDocument` in lib/document-api.ts are one-line URL wrappers. Their answers are inputs of `DocumentList`, and their paths are not modelled.
- lib/api.ts is one-line URL wrappers. Only its `getChatHistory` result shape is modelled, as `UseChat.Envelope`.
- middleware.ts always lets the request through, and its matcher pattern is applied by Next.js, so it is not modelled.

## Findings

| source | as written | input that shows it | evidently intended | confidence | as-written member | corrected member |
|---|---|---|---|---|---|---|
| hooks/useChat.ts:25-36 | `getChatHistory` (lib/api.ts:42-43) resolves to the axios response, and the hook tests that response itself with `Array.isArray`, so the history always formats as `[]` | the backend answers 200 with the body `[{"role": "user", "content": "hello", "timestamp": "2024-01-01T00:00:00Z"}]`; the hook shows an empty transcript | the hook normalises `response.data`, keeping that message | not executed | UseChat.HistoryAsWritten | UseChat.History |
