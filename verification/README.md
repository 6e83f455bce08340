# Request dispatcher of the plugin router

This project models the plugin router of tms-mongodb-web's back end (`back/plugins/router.js`). The router serves every request under a configurable prefix. It:

- strips the prefix from the request path;
- maps the rest of the path to a controller file and a method name (`findCtrlAndMethod`);
- runs that method inside a wrapper (`fnCtrlWrapper`). The wrapper:
  - checks the access token;
  - opens the configured stores;
  - may begin a transaction and calls the controller's `tmsBeforeEach` hook;
  - turns an exception into a `ResultFault` body, unless it is a value `toString()` cannot convert (`undefined`, `null`, or a missing or failing `toString`): then the `catch` block itself throws and no body is set;
  - always ends the relational connection it opened.

The modules follow that structure:

- `Base`: `Option`, `Result`, occurrence counting.
- `Strings`: the JavaScript string operations the router uses. These are `String.prototype.replace` with a string pattern (first occurrence only), `split('/')`, `join('/')` and the last separator.
- `Faults`: the values the router and its collaborators throw. It also covers the text the `catch` block makes of them: a thrown string is used as it is; an `Error` goes through `Error.prototype.toString` (section 20.5.3.4 of ECMA-262); any other value whose `toString` is a function that returns, such as a number or a plain object, gives that text (`"42"`, `"[object Object]"`); and a value `toString()` cannot convert (`undefined`, `null`, or a missing or failing `toString`) makes the conversion throw, a `TypeError` for `undefined` and `null`. It also holds the router's fixed messages.
- `Prefix`: normalisation of the configured prefix at load time and its removal from each path.
- `Resolver`: `findCtrlAndMethod`. The deployment is a working directory, a set of existing files, and, per file that exports a class, the controller instance that `new` yields.
  - A controller is a map from member name to kind: function, other value, or `undefined` when the name is absent.
- `Dispatch`: `fnCtrlWrapper`, written stage by stage as a function over states.
  - Every external collaborator is an oracle in `World`. `Token.fetch` accepts with a client or rejects with a reason. The others return or throw: `new DbContext()`, the MongoDB and mongoose contexts, `tmsRequireTransaction`, `begin()`, `tmsBeforeEach` and the method itself.
  - The handler returns the response body and the trace of events it caused.
  - `ExpectedTrace`/`ExpectedBody` describe the same result in closed form, with no intermediate states. `HandleIsExpected` proves that the staged handler and the closed form agree.
- `Lifecycle`: the properties of one pass over every configuration, request and collaborator behaviour. These cover the resource lifecycle of the relational connection, stage order, the transaction condition, the hook's short circuit, and the way errors surface in the body.

Behaviour worth knowing, as the code has it:

- The prefix removal is not anchored. It removes the first occurrence of the prefix wherever it is (`Prefix.StripUnanchored`). A path that starts with the prefix letter for letter loses exactly that leading prefix (`Prefix.StripLeading`). The route itself matches the prefix ignoring case, while the removal is case-sensitive. With prefix `/api`, the path `/API/x/api/y` becomes `/API/x/y`, and `/API/x` is not changed at all.
- The path keeps its leading `/`, so the first piece of the split is empty. `/a` has the namespace `""`, and its candidate files are `<cwd>/plugins/.js` and `<cwd>/plugins//main.js` (`Resolver.SingleSegment`). The file system reads the second as `<cwd>/plugins/main.js`, so `/a` is resolved against the root plugin's `main.js` whenever `<cwd>/plugins/.js` is absent.
- Resolution rejects a method only when the member is `undefined`. The second half of the test at line 53 never decides anything. A member that is defined but not a function passes resolution, and the call then throws a `TypeError` (`Lifecycle.MemberNotAFunction`).
- The transaction stage reads `tmsClient.id` without a check. With token support off there is no client, so a method that must run in a transaction fails with a `TypeError` (`Lifecycle.TransactionWithoutClient`).
- A method that rejects with `undefined` or `null` (a bare `Promise.reject()`, `throw null`) makes `err.toString()` throw inside the `catch` block. No body is set and the handler rejects with that `TypeError`, after the `finally` block has still ended the connection (`Lifecycle.NullishThrowEscapes`). The same happens for any thrown value whose `toString` is missing (`Object.create(null)`), is not a function, or throws: the handler then rejects with what the conversion threw (`Lifecycle.RejectedIffUnconvertible`).
- The transaction is never ended: the line that would end it is commented out. The model has no event for ending it.
- Error (1) is raised exactly when the stripped path contains no `/`. The method is the text after the last `/`, and the namespace is everything before it.

## Model

| member | source | states |
|---|---|---|
| Strings.ReplaceFirst | back/plugins/router.js:27 | `replace` with a string pattern returns the input when the pattern does not occur, and otherwise cuts out the first occurrence and puts the replacement there |
| Strings.Split | back/plugins/router.js:29 | `split('/')` yields one piece more than there are separators, and no piece contains a separator |
| Strings.JoinSplit | back/plugins/router.js:29-41 | joining the pieces of a split with the same separator gives back the original string |
| Strings.SplitJoin | back/plugins/router.js:29-41 | splitting a join of separator-free pieces gives back the pieces |
| Strings.LastIndex | back/plugins/router.js:38 | the last index of a character holds that character and none follows it; there is none exactly when the character does not occur |
| Prefix.Normalise | back/plugins/router.js:167-169 | the prefix is always empty or starts with `/`; an absent setting gives `''`, a setting starting with `/` is kept, and any other non-empty setting gets a `/` in front |
| Prefix.NormaliseIdempotent | back/plugins/router.js:169 | normalising an already normalised prefix changes nothing |
| Prefix.Strip | back/plugins/router.js:27 | an empty prefix leaves the path unchanged |
| Prefix.StripAbsent | back/plugins/router.js:27 | a path that does not contain the prefix is unchanged |
| Prefix.StripFirst | back/plugins/router.js:27 | a non-empty prefix is cut out at its first occurrence and nowhere else, so the path becomes exactly that much shorter |
| Prefix.StripLeading | back/plugins/router.js:27 | a path that starts with the prefix loses exactly that leading prefix |
| Prefix.StripUnanchored | back/plugins/router.js:27 | the removal is not anchored: `/api` is removed from the middle of `/x/api/y` |
| Resolver.SplitTarget | back/plugins/router.js:29-39 | the path is rejected exactly when it has no `/`; otherwise the namespace, a `/` and a method without `/` rebuild the path |
| Resolver.SplitTargetAtLastSlash | back/plugins/router.js:29-39 | the method is the text after the last `/` and the namespace is the text before it |
| Resolver.MemberMissing | back/plugins/router.js:53 | the member test rejects exactly the undefined members; a defined non-function member passes |
| Resolver.Resolve | back/plugins/router.js:24-60 | error (1) occurs exactly when the stripped path has no `/`; a resolved target rebuilds the stripped path, its file exists and exports a class, its controller is that class's instance, and its member is defined |
| Resolver.ResolveStripped | back/plugins/router.js:29-59 | error (1) occurs exactly when there is no `/`; a target's namespace and method rebuild the path, and the method contains no `/` |
| Resolver.ResolveOutcomes | back/plugins/router.js:38-59 | error (2) occurs exactly when neither `<ns>.js` nor `<ns>/main.js` exists; a non-class export gives the constructor `TypeError`; error (3) occurs exactly when the member is undefined; otherwise the target comes from `<ns>.js` when it exists and from `<ns>/main.js` when it does not |
| Resolver.SingleSegment | back/plugins/router.js:29-49 | `/a` is not malformed; it fails with error (2) exactly when neither `<cwd>/plugins/.js` nor `<cwd>/plugins//main.js` (the root plugin's `main.js`) exists |
| Faults.FaultMessage | back/plugins/router.js:155 | defined only for values `toString()` can convert: not `undefined`, not `null`, and with a `toString` that is a function and returns; a thrown string is the message as it is, any other non-`Error` value (or an error with its own `toString`) its `toString` text; an error's text starts with its name and ends with its message, with a 2-character separator when both are non-empty |
| Faults.ToStringFailure | back/plugins/router.js:155 | `toString()` on `undefined` or `null` throws a `TypeError` naming which of the two it was read from, and that error is itself convertible; on a value whose `toString` is missing or fails it throws what that failure throws |
| Faults.TypeErrorText | back/plugins/router.js:155 | a caught `TypeError` leaves `TypeError: ` followed by its message |
| Faults.NotFoundText | back/plugins/router.js:35 | a caught resolution error leaves `Error: ` followed by its message |
| Faults.NotFoundMessagesDistinct | back/plugins/router.js:31 | the three not-found messages differ, so a client can tell the causes apart |
| Resolver.ThrownText | back/plugins/router.js:31-56 | errors (1), (2) and (3) leave `Error: ` and the not-found message with that cause number; a non-class export leaves the `CtrlClass is not a constructor` `TypeError` text |
| Dispatch.ProvisionFault | back/plugins/router.js:87-101 | there is no acquisition fault exactly when no configured store's acquisition throws |
| Dispatch.StoreEvents | back/plugins/router.js:87-93 | the store events hold the creation of the relational connection exactly when `config/db.js` exists and `new DbContext()` returns |
| Dispatch.OpenDb | back/plugins/router.js:87-93 | the connection is held exactly when `config/db.js` exists and construction returns; the stage throws exactly when construction throws, and then with that exception |
| Dispatch.Connect | back/plugins/router.js:94-101 | a configured document store whose acquisition throws ends the stage with that exception; one that returns records its connection; an unconfigured store does nothing |
| Dispatch.Provision | back/plugins/router.js:86-101 | the connection is held exactly when created; the stage ends early exactly when some configured store throws, with the first such exception; it records exactly the connections made, in order |
| Dispatch.BeginTransaction | back/plugins/router.js:115-133 | a transaction is begun exactly when the connection exists, `tmsTransaction` is on, `tmsRequireTransaction` marks the method, a client is present and `begin()` returns; a throw by `tmsRequireTransaction` or `begin()`, or a missing client, ends the `try` with the matching exception |
| Dispatch.BeforeEach | back/plugins/router.js:137-143 | the hook is called exactly when it is a function; a `ResultFault` it returns becomes the body and ends the `try`; a throw ends it with that exception; anything else lets the request through |
| Dispatch.Invoke | back/plugins/router.js:144-152 | a non-function member throws the `oCtrl[method] is not a function` `TypeError`; a function is called; the body is its value and `next()` runs exactly when it returns |
| Dispatch.StoreEventsOrdered | back/plugins/router.js:87-101 | the connections are recorded in acquisition order: relational, MongoDB, mongoose |
| Dispatch.StoreStagesOrdered | back/plugins/router.js:87-101 | whichever of the three acquisitions succeed, their events come in stage order |
| Dispatch.LaterStagesOrdered | back/plugins/router.js:115-152 | whichever of transaction, hook, call and `next()` happen, their events come in stage order |
| Dispatch.TargetEventsOrdered | back/plugins/router.js:115-152 | the events after resolution come in stage order |
| Dispatch.TryEventsOrdered | back/plugins/router.js:86-152 | the `try` block's events come in stage order, after the token fetch and before the end of the connection |
| Dispatch.ResolvedEventsOrdered | back/plugins/router.js:86-152 | with a resolved target, stores, resolution and later stages come in stage order |
| Dispatch.AroundResolution | back/plugins/router.js:105-115 | store events, then the resolution, then the later stages form one ordered trace |
| Dispatch.RunTarget | back/plugins/router.js:115-152 | once resolved, the `try` block always ends, and the connection variable is untouched |
| Dispatch.RunTargetTrace | back/plugins/router.js:115-152 | the stages after resolution record exactly the closed-form events: transaction, hook, call and `next()`, each when every stage before it let the request through |
| Dispatch.TransactionFailsTrace | back/plugins/router.js:115-133 | when the transaction stage throws, nothing after it is recorded |
| Dispatch.HookStopsTrace | back/plugins/router.js:137-143 | when the hook ends the `try`, the method and `next()` are not recorded |
| Dispatch.CallTrace | back/plugins/router.js:144-152 | when the method is reached, the call and `next()` follow the transaction and hook events |
| Dispatch.RunTargetExit | back/plugins/router.js:115-152 | the stages after resolution end as the decision list says: the first failing check in source order decides the exception or body |
| Dispatch.TryBlock | back/plugins/router.js:86-152 | the `try` block always ends, and it holds the connection exactly when it was created |
| Dispatch.TryBlockOutcome | back/plugins/router.js:86-152 | the `try` block records exactly the closed-form events and ends with the first store fault, else the resolution error, else the later stages' outcome |
| Dispatch.Catch | back/plugins/router.js:153-156 | a thrown value that `toString()` can convert becomes a `ResultFault` carrying its text; any other value (`undefined`, `null`, a missing or failing `toString`) sets no body and the handler rejects with what the conversion threw; a body already set is kept |
| Dispatch.Finally | back/plugins/router.js:157-163 | the `finally` block ends the connection exactly when one is held, clears the variable and keeps the outcome |
| Dispatch.Handle | back/plugins/router.js:67-83 | with token support on, a missing or empty token gives `ResultFault('缺少access_token参数')` and a rejected token gives `AccessTokenFault(reason)`; in both cases nothing else happens, and no store is touched or ended |
| Dispatch.HandleIsExpected | back/plugins/router.js:67-163 | the staged handler's events and body equal the closed-form definitions for every configuration, request and world |
| Dispatch.AdmittedTrace | back/plugins/router.js:84-163 | an admitted request records the token fetch when support is on, the `try` block's events, and the end of the connection exactly when it was created |
| Dispatch.AdmittedBody | back/plugins/router.js:84-163 | an admitted request's body is what the `catch` block makes of the `try` block's outcome |
| Dispatch.OrderedConcat | back/plugins/router.js:67-163 | two stage-ordered traces, the first ending before the second starts, form a stage-ordered trace |
| Dispatch.OrderedExcludes | back/plugins/router.js:67-163 | an event of a stage outside an ordered trace's span does not occur in it |
| Lifecycle.ExpectedOrdered | back/plugins/router.js:67-163 | the closed-form events follow the stage order |
| Lifecycle.HandleOrdered | back/plugins/router.js:67-163 | the handler acts in stage order (token, stores, resolution, transaction, hook, call, `next()`, end), each at most once |
| Lifecycle.ExpectedTokenFetched | back/plugins/router.js:70-83 | the token service is asked exactly when support is on and the request carries a non-empty token |
| Lifecycle.TokenFetchedIff | back/plugins/router.js:70-83 | the token service is asked exactly when support is on and the request carries a non-empty token |
| Lifecycle.ExpectedReleasedIffCreated | back/plugins/router.js:87-93 | in closed form, the connection is ended exactly when it was created, and that is exactly when the request is admitted and the connection is opened |
| Lifecycle.TriedCreatesIff | back/plugins/router.js:87-93 | the `try` block's events include the creation exactly when the connection is opened, whatever happens later |
| Lifecycle.ReleasedIffCreated | back/plugins/router.js:157-163 | `dbContext.end()` runs exactly when the connection was created: the request is admitted, `config/db.js` exists and construction returns |
| Lifecycle.ReleasedExactlyOnce | back/plugins/router.js:157-163 | the end runs as often as the creation, at most once; it is the handler's last act and follows the creation, also after later store failures, resolution errors and thrown methods |
| Lifecycle.TryBlockTrace | back/plugins/router.js:86-163 | for an admitted request whose connection was created, the trace is the events before the `finally` block, containing the creation, followed by the end |
| Lifecycle.ExpectedReleaseLast | back/plugins/router.js:157-163 | in closed form, a created connection's end comes last and its creation before it |
| Lifecycle.CountsOfOrderedTrace | back/plugins/router.js:157-163 | in an ordered trace where creation and end occur together, each occurs equally often and at most once |
| Lifecycle.OrderedAtMostOnce | back/plugins/router.js:67-163 | in a stage-ordered trace every event occurs at most once |
| Lifecycle.ExpectedLaterEvent | back/plugins/router.js:105-152 | a transaction, hook, call or `next()` event occurs exactly when the request is admitted, every store is connected, the target resolves and the later stages record it |
| Lifecycle.TargetEventsMembers | back/plugins/router.js:115-152 | each later event's own condition: transaction when one opens; hook when the transaction stage passes and the hook is a function; call when the stages before it pass and the member is a function; `next()` when the call also returns |
| Lifecycle.ExpectedTransactionBegun | back/plugins/router.js:115-133 | in closed form, a transaction is begun exactly when admitted, provisioned, resolved and the transaction stage opens one |
| Lifecycle.TransactionBegunIff | back/plugins/router.js:115-133 | a transaction is begun exactly when the request is admitted, every configured store connects, the target resolves, the connection exists, `tmsTransaction` is on, `tmsRequireTransaction` marks the method, a client exists and `begin()` returns |
| Lifecycle.TransactionNeedsMarking | back/plugins/router.js:115-128 | every begun transaction has an existing connection, `tmsTransaction` on, and a `tmsRequireTransaction` function that marks the method |
| Lifecycle.ExpectedTransactionWithoutClient | back/plugins/router.js:124-127 | in closed form, a marked method without a client fails with the `tmsClient.id` `TypeError`; no hook, no call, and the connection is ended |
| Lifecycle.TransactionWithoutClient | back/plugins/router.js:124-127 | with token support off, a method marked for a transaction fails with the `TypeError` of reading `id` of `undefined`; neither hook nor method runs and the connection is still ended |
| Lifecycle.ExpectedHookShortCircuits | back/plugins/router.js:137-143 | in closed form, a hook's `ResultFault` is the body, the hook ran, and neither the method nor `next()` ran |
| Lifecycle.HookShortCircuits | back/plugins/router.js:137-143 | a `ResultFault` returned by `tmsBeforeEach` becomes the body; the method and `next()` never run |
| Lifecycle.TargetExitPayload | back/plugins/router.js:144-152 | the outcome is the method's value exactly when the call is reached, the member is a function and the call returns |
| Lifecycle.ExpectedSucceedsIffNext | back/plugins/router.js:144-152 | in closed form, the body is a value exactly when `next()` ran, and then it is the method's return value |
| Lifecycle.SucceedsIffNext | back/plugins/router.js:144-152 | the response carries a value exactly when `next()` ran; then the method ran and the body is its return value |
| Lifecycle.ExpectedMemberNotAFunction | back/plugins/router.js:144 | in closed form, a defined non-function member gives the `oCtrl[method] is not a function` text and no call |
| Lifecycle.MemberNotAFunction | back/plugins/router.js:53-57 | a defined non-function member passes resolution and fails at the call with the `TypeError` text; the method and `next()` never run |
| Lifecycle.ExpectedStoreFailure | back/plugins/router.js:86-156 | in closed form, a store failure after the connection was created gives that exception's text, or no body and a rejection when it is a value `toString()` cannot convert (`undefined`, `null`, or a missing or failing `toString`); nothing after the stores runs and the connection is ended |
| Lifecycle.StoreFailureReleases | back/plugins/router.js:94-163 | a MongoDB or mongoose failure after the relational connection was created still ends it; the body carries the failure's text (none is set for a value `toString()` cannot convert: `undefined`, `null`, or a missing or failing `toString`; the handler then rejects) and no hook or method runs |
| Lifecycle.ExpectedResolutionFailure | back/plugins/router.js:105-156 | in closed form, a resolution error gives its thrown text; no hook, no call, and the connection is ended exactly when it was created |
| Resolver.ThrownBy | back/plugins/router.js:31-56 | every resolution error is an `Error` object, so the `catch` block can always convert it |
| Lifecycle.ResolutionFailureCaught | back/plugins/router.js:105-163 | a resolution failure of an admitted, provisioned request is caught like any exception: the body is the text of the thrown error, neither hook nor method runs, and the connection is ended exactly when it was created |
| Lifecycle.ExpectedRejectedIff | back/plugins/router.js:86-156 | in closed form, no body is set exactly when the request is admitted and the `try` block throws a value `toString()` cannot convert; the rejection is what the conversion threw, a `TypeError` for `undefined` and `null` |
| Lifecycle.RejectedIffUnconvertible | back/plugins/router.js:67-163 | the handler sets no body exactly when the request gets past the token gate and the `try` block throws a value `toString()` cannot convert (`undefined`, `null`, a missing or failing `toString`); every other outcome sets one; the rejection is what the conversion threw, a `TypeError` for `undefined` and `null` |
| Lifecycle.NullishCall | back/plugins/router.js:144 | a reached method that throws `undefined` or `null` is called, `next()` is not, and the `try` block ends with that value |
| Lifecycle.ExpectedNullishEscapes | back/plugins/router.js:144-163 | in closed form, a method throwing `undefined` or `null` leaves no body, a rejection with the `toString` `TypeError`, no `next()`, and the connection ended exactly when it was created |
| Lifecycle.NullishThrowEscapes | back/plugins/router.js:144-163 | a method that rejects with `undefined` or `null` makes the handler reject with the `TypeError` of reading `toString` from it; the method ran, `next()` did not, and the connection is still ended when it was created |

## Left out

- Route registration (`new Router({ prefix })`, `router.all('/*', …)`) and Koa itself: the model starts from the request path the handler sees.
- Logging: it has no effect on the outcome.
- `process.cwd()`, `fs.existsSync` and `require`: the working directory is a string. Existing files are a set, and loaded classes are a map from path to controller. A `require` or a class constructor that throws is not modelled.
- The `config/` files the handler checks are a separate set of names from the plugin files. The two sets are independent inputs, so every real file system is one of the modelled worlds; nothing is assumed about how they overlap.
- Path normalisation by the file system: request paths are not normalised, so a path with `..` (such as `/../config/db/x`) can reach `.js` files outside `plugins/`. The model treats each candidate path as an opaque string in the set of existing files, so such a path resolves exactly when the set holds that string.
- `Token.fetch` rejecting or throwing: it sits outside the `try`, so its exception escapes the handler to Koa.
- `Token.fetch` is assumed to accept only with a client object: the source accepts any result whose first element is not exactly `false`, and `tmsClient` may then be `undefined`, which the model does not represent.
- `access_token` is a single string: a repeated query parameter arrives as an array, which always passes the token check, and that case is not modelled.
- `dbContext.end()` throwing, and `next()`'s returned promise: neither is awaited or caught by the handler.
- `await`: each awaited call is an oracle that returns or throws. No interleaving with other requests is modelled.
- A prefix setting that is not a string or is `null`: the setting is `Option<string>`.
- `ResultFault` subclasses returned by the hook.
- Faults.FaultMessage: a `toString` that returns something other than a string is not modelled; the message is always a string. A value whose `toString` returns a string carries that string (`ThrownOther`), one whose `toString` is missing or throws is unconvertible (`ThrownUnconvertible`).
- Runtime wording: the texts of the runtime's `TypeError`s (`Faults.ReadOfUndefined`, `Faults.ReadOfNull`, `Faults.NotAFunction`, `Faults.NotAConstructor`) follow V8 in Node 16.9 and later; older runtimes word them differently (for example `Cannot read property 'id' of undefined`).
- The rejection of the handler's promise when no body is set: the model records the `TypeError` in a `Rejected` body, and what Koa then makes of it is outside the model.
- Object identity of the hook's `ResultFault`: the body records only its message.
- `transMethodes[method]` truthiness: a marked method is a name in a set, so a member present with a falsy value counts as unmarked.
- The `RequestTransaction` constructor and `dbContext.mysql`: only `begin()` succeeding or throwing is modelled, plus the `tmsClient.id` read.
