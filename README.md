# unbound bindings for node.js — a Dafny model

The `unbound` package binds libunbound, a validating recursive DNS resolver
library, to node.js. It does no resolution of its own. What it owns is a
layer of deterministic rules, and this project models those rules and
proves what they promise:

- **lib/unbound.js**
  - The `Unbound` class extends the native `NodeUnbound`.
  - It appends a colon to option names and makes domain names absolute.
  - It writes typed option values in libunbound's string form and reads them back.
  - It keeps a one-way `finalized` flag.
  - `resolve` defaults the type and class to 1.
  - It maps the 14-item answer array onto the named fields of `UnboundResult`.
- **src/node_unbound.cc** (the NAN binding the class extends)
  - Exact arity checks, then type checks in argument order, before any library call.
  - Library errors formatted as `libunbound: <message> (<code>)`.
  - The `AddTrustAnchorFile` flag, which the code as written validates and then ignores (see Findings). The dispatcher here follows the corrected reading.
  - A worker that owns the duplicated query name and the `ub_result`, frees each once, and converts the result into a 14-slot callback array.
- **src/node_unbound.c** (the N-API binding)
  - The same error formatting, with its buffer bound.
  - A length guard on every string argument and on the query name, so the library never sees more than 1024 characters.
  - Context creation that deletes a half-initialised context.
  - The resolution worker with its fixed name buffer.
  - The promise-based 14-slot conversion, where the packet is null when its length is 0.

libunbound itself is never modelled. Each library call's answer is a
parameter of type `LibAnswer`, made of:
- the returned code;
- what `ub_strerror` gives for it;
- the string value, if any.

`ub_resolve`'s output is a `UbResult` value.

Files:

| file | module | models |
|---|---|---|
| wrappers.dfy | Wrappers | Option and Result |
| js_values.dfy | JsValues | JavaScript values, thrown errors, ToUint32, the C `(int)` cast |
| decimal.dfy | Decimal | `toString(10)` / `%d` spelling and `parseInt` reading of integers |
| option_codec.dfy | OptionCodec | `colon`, `fqdn`, `isNumber`, the option-value codec |
| error_format.dfy | ErrorFormat | `node_ub_strerror`, `nu_strerror` |
| libunbound.dfy | Libunbound | `struct ub_result`, the library calls, library answers as data |
| result_conversion.dfy | ResultConversion | the 14-slot result array and the walk over `data` |
| napi_binding.dfy | NapiBinding | src/node_unbound.c |
| nan_binding.dfy | NanBinding | src/node_unbound.cc |
| unbound.dfy | UnboundJs | lib/unbound.js |

Modelling choices:
- A C `char *` string is a `seq<char>`, one character per byte.
- A NULL pointer is `None`.
- `ub_result`'s NULL-terminated `data` array is a `seq<Option<Bytes>>`:
  - a `None` entry is a NULL element;
  - the end of the sequence also ends the walk.
- Each data buffer already has the length of its `len` entry. The boolean `hasLen` records whether the `len` array pointer is non-NULL.
- `answer_len` is the length of the packet, 0 when the pointer is NULL.
- JavaScript numbers are integers. The binding's `uint32_t` conversions are ToUint32, written out modulo 2^32. The `(int)` cast back wraps values of 2^31 and above to negative.
- Errors a binding method throws are `Failure` values. What a method returns is a `Success` value.
- `Outcome` records the library call a method made, if any, so "no library call on rejection" is stated outright.

## Model

| member | source | states |
|---|---|---|
| OptionCodec.ColonName | lib/unbound.js:164-175 | the result extends the name by at most one character; a non-empty result ends in ':'; the name is returned unchanged exactly when it is empty or already ends in ':' |
| OptionCodec.Colon | lib/unbound.js:164-167 | a value that is not a string passes through unchanged; a string stays a string |
| OptionCodec.ColonIdempotent | lib/unbound.js:164-175 | applying `colon` twice is the same as applying it once |
| OptionCodec.FqdnName | lib/unbound.js:177-188 | the result always ends in '.'; '' becomes '.'; a non-empty name gains at most one '.', and is unchanged exactly when it already ends in '.' |
| OptionCodec.Fqdn | lib/unbound.js:177-180 | a value that is not a string passes through unchanged |
| OptionCodec.FqdnIdempotent | lib/unbound.js:177-188 | applying `fqdn` twice is the same as applying it once |
| OptionCodec.IsNumber | lib/unbound.js:190-198 | accepts exactly the strings of one to fifteen ASCII digits; the value of what it accepts is below 10^15 |
| OptionCodec.IsNumberExact | lib/unbound.js:190-198 | a string `isNumber` accepts has a value below 10^15 < 2^53, so `parseInt` reads it exactly |
| OptionCodec.EncodeValue | lib/unbound.js:21-32 | null/undefined become '', true 'yes', false 'no'; a number becomes a spelling that `parseInt` reads back as the number, with a leading '-' exactly when it is negative and digits only otherwise; strings and other values pass unchanged |
| OptionCodec.DecodeValue | lib/unbound.js:34-53 | null, undefined and '' become null; 'yes' true; 'no' false; a 1–15 digit string its decimal value, leading zeros included ('007' gives 7), below 10^15; any other string comes back unchanged; and conversely a boolean or a number result comes only from those strings |
| OptionCodec.RoundTripScalar | lib/unbound.js:21-53 | booleans survive a set followed by a get; null and undefined come back as null |
| OptionCodec.RoundTripNumber | lib/unbound.js:21-53 | a number survives a set followed by a get exactly when it is a non-negative integer below 10^15; a negative number comes back as its spelling |
| OptionCodec.RoundTripString | lib/unbound.js:21-53 | a string survives a set followed by a get exactly when it is none of '', 'yes', 'no' and not a 1–15 digit string |
| OptionCodec.EncodeDecodeString | lib/unbound.js:21-53 | writing back what was read leaves the stored string unchanged, except a digit string with a superfluous leading zero |
| Libunbound.CString | src/node_unbound.c:459 | the string a `char *` carries is the prefix before the first NUL, the whole string when it has none |
| Decimal.NatToDecimal | lib/unbound.js:28-29 | the spelling of a natural number is a non-empty digit string with no leading zero |
| Decimal.DigitsToNat | lib/unbound.js:49-50 | the value of a digit string is below 10^length |
| Decimal.DigitsToNatOfDecimal | lib/unbound.js:28-29 | reading back a natural number's spelling gives the number |
| Decimal.DecimalOfDigitsToNat | lib/unbound.js:49-50 | spelling the value of a digit string without a superfluous leading zero gives the string back |
| Decimal.DigitsToNatLeading | lib/unbound.js:49-50 | a digit string not starting with '0' has value at least 10^(length-1) |
| Decimal.DecimalLength | lib/unbound.js:190-198 | a spelling has at most k digits exactly when the number is below 10^k |
| Decimal.IntToDecimal | src/node_unbound.c:61 | `%d` of an integer: digits only exactly when non-negative, a leading '-' exactly when negative |
| Decimal.ParseInt | src/node_unbound.c:61 | a reading succeeds exactly on a digit string, or '-' followed by one |
| Decimal.IntToDecimalRoundTrip | src/node_unbound.c:61 | the signed spelling reads back as the same integer |
| Decimal.Int32DecimalLength | src/node_unbound.c:35 | any `int` prints in at most 11 characters |
| ErrorFormat.ShownMessage | src/node_unbound.c:56-59 | the library message is shown when present and at most 256 characters long, otherwise "unknown error"; never more than 256 characters |
| ErrorFormat.FormatMessage | src/node_unbound.c:54-62 | the message starts with "libunbound: ", ends in ')', and with its NUL fits in NODE_UB_MAX_ERR = 12+256+2+11+1+1 bytes for every `int` code |
| ErrorFormat.ParseFormatMessage | src/node_unbound.c:54-62 | the formatted message determines both the text shown and the code |
| ErrorFormat.NuStrerror | src/node_unbound.cc:7-22 | the two-step NULL and length fallback gives exactly `node_ub_strerror`'s message |
| JsValues.ToUint32 | src/node_unbound.cc:592-593 | the result is in [0, 2^32) and equals the input when the input is already there |
| JsValues.UnsignedToCInt | src/node_unbound.cc:602-608 | the `(int)` cast stays in the `int` range and converting back to `uint32_t` recovers the value |
| JsValues.ToBoolean | src/node_unbound.cc:234 | `Nan::To<bool>` of null or undefined is false, of a boolean the boolean |
| ResultConversion.DataArray | src/node_unbound.c:487-498 | empty when the data or len array is NULL; otherwise element i is a copy of entry i, for every entry before the first NULL, and the entry after the last is NULL |
| ResultConversion.NullableString | src/node_unbound.c:478-483 | an absent string becomes null, a present one the same string |
| ResultConversion.PacketSlot | src/node_unbound.c:508-513 | by length: null exactly when `answer_len` is 0; by pointer: null exactly when the pointer is NULL; otherwise a copy of the packet |
| ResultConversion.RateLimitedSlot | src/node_unbound.c:528-533 | false below libunbound 1.8, the library's `was_ratelimited` from 1.8 on |
| ResultConversion.ResultArray | src/node_unbound.c:470-542 | fourteen slots: qname, canonname and why_bogus null or a string; qtype, qclass, rcode and ttl numbers in [0, 2^32); the data slot an array; the packet null or a buffer; the five flags booleans |
| ResultConversion.PacketRulesDiffer | src/node_unbound.cc:504-542 | the two bindings' arrays differ exactly when the packet pointer is non-NULL with length 0 (null in the .c binding, an empty buffer in the .cc one) |
| ResultConversion.CopyDataItems | src/node_unbound.c:487-498 | the `while (data[i] != NULL)` walk yields exactly the data array |
| NapiBinding.Copy | src/node_unbound.c:130-133 | the copy is a prefix of the string, at most 1025 characters, the whole string when it fits |
| NapiBinding.Fits | src/node_unbound.c:135-136 | the guard passes exactly when the string has at most 1024 characters, and then the copy is the whole string |
| NapiBinding.NapiSetter | src/node_unbound.c:118-141 | the library is called exactly when every string argument passes the guard, so it never sees more than 1024 characters; otherwise "String exceeds maximum length." is thrown; a non-zero code is thrown as ERR_UNBOUND with the formatted message; success returns the context handle |
| NapiBinding.NapiAddTaFile | src/node_unbound.c:309-332 | after the guard on the file name, `ub_ctx_add_ta_autr` is called exactly when the flag is true and `ub_ctx_add_ta_file` exactly when it is false, with the name whole; a long name throws "String exceeds maximum length." and makes no call; a non-zero code throws ERR_UNBOUND with the formatted message; success returns the context handle |
| NapiBinding.NapiGetOption | src/node_unbound.c:143-174 | as the setters for the guard and the error; a NULL value becomes null, any other value a string |
| NapiBinding.NapiCreate | src/node_unbound.c:87-116 | a NULL context throws "Could not allocate context."; a failure of debugout, or of debuglevel after it, deletes the context and throws that call's ERR_UNBOUND error; the context is deleted exactly when the call fails; success returns the handle after both calls |
| NapiBinding.NapiWorker.constructor | src/node_unbound.c:588-599 | the buffer has NODE_UB_MAX_STR characters and holds the name followed by its NUL; no result, error 0 |
| NapiBinding.NapiWorker.Execute | src/node_unbound.c:455-460 | `ub_resolve` is called with the name read from the buffer up to its NUL (at most 1024 characters, the whole name when it holds no NUL) and the type and class through the `uint32_t` to `int` conversion; the code and the result are recorded; the worker stays valid |
| NapiBinding.NapiWorker.Complete | src/node_unbound.c:462-556 | a failed work status forces error -8; error 0 resolves with the 14-slot array, packet by length; any other error rejects with ERR_UNBOUND and the formatted message; the worker stays valid |
| NapiBinding.ConvertResult | src/node_unbound.c:470-542 | the array resolved with is exactly the 14-slot array, packet by length |
| NapiBinding.SetElements | src/node_unbound.c:537-540 | the `napi_set_element` loop stores every slot in order |
| NapiBinding.NapiResolve | src/node_unbound.c:567-599 | a name over 1024 characters is rejected before any worker exists; otherwise a fresh valid worker holds the name, the type and class as `uint32_t`, no result and error 0 |
| NanBinding.Signature | src/node_unbound.cc:119-129 | `version` takes no arguments, `setStub` three, `resolve` four, and every other method's first argument is a string |
| NanBinding.FirstMismatch | src/node_unbound.cc:122-129 | none exactly when every argument has its kind; otherwise the position of the first argument of the wrong kind, all earlier ones right |
| NanBinding.CheckArgs | src/node_unbound.cc:574-587 | passes exactly on well-typed arguments; a wrong count gives the method's arity Error whatever the arguments; otherwise a TypeError naming the first wrong argument and the kind expected |
| NanBinding.CheckArgsAt | src/node_unbound.cc:122-129 | with the right count, the TypeError names exactly the first argument of the wrong kind |
| NanBinding.ArityBeforeTypes | src/node_unbound.cc:122-129 | a wrong argument count is reported first and no library call is made |
| NanBinding.ArgAt | src/node_unbound.cc:319 | `info[i]` past the arguments is undefined, as is `items[i]` past the end of the array in lib/unbound.js |
| NanBinding.AddTrustAnchorFileFlagAsWritten | src/node_unbound.cc:319 | the flag is read from `info[2]`, so with the two arguments the arity check admits it is always false |
| NanBinding.AddTrustAnchorFileAsWritten | src/node_unbound.cc:319-326 | as written, every call the checks accept takes the `ub_ctx_add_ta_file` branch, whatever its flag |
| NanBinding.AddTrustAnchorFileSlip | src/node_unbound.cc:319-326 | `("root.key", true)` passes the checks but takes the plain branch; the corrected member takes the auto-update branch |
| NanBinding.AddTrustAnchorFileCall | src/node_unbound.cc:304-332 | the auto-update branch is taken exactly when the second argument is true, with the file name passed whole |
| NanBinding.LibCallOf | src/node_unbound.cc:119-438 | each method passes exactly its string arguments, whole and in order, to its library call; for `AddTrustAnchorFile` the corrected reading: `ub_ctx_add_ta_autr` exactly when the second argument is true |
| NanBinding.Invoke | src/node_unbound.cc:119-438 | a library call is made exactly on well-typed arguments, otherwise the check's error is thrown; the call is `LibCallOf`'s; a non-zero code throws the formatted message; `getOption` returns the value or null; every other method returns `this` |
| NanBinding.AddTrustAnchorFileDispatch | src/node_unbound.cc:304-332 | the dispatcher makes the corrected call, and it differs from the call the code as written makes exactly when the flag is true |
| NanBinding.SetStubCall | src/node_unbound.cc:213-242 | the third argument is passed as `isprime` |
| NanBinding.NanVersion | src/node_unbound.cc:85-92 | succeeds exactly with no arguments, returning the library's version string |
| NanBinding.NanNew | src/node_unbound.cc:94-117 | outside a construct call, or with a NULL context, "Could not create Unbound instance." is thrown; a failure of debugout, or of debuglevel after it, throws that call's formatted library error; success needs both to return 0; the context is never deleted here |
| NanBinding.NanWorker.constructor | src/node_unbound.cc:462-476 | the worker owns the name, holds no result, and is valid |
| NanBinding.NanWorker.Execute | src/node_unbound.cc:490-496 | `ub_resolve` is called with the owned name, the type and the class; the result is stored and a non-zero code sets the formatted error message; ownership stays valid |
| NanBinding.NanWorker.HandleOKCallback | src/node_unbound.cc:498-569 | the callback gets null and the 14-slot array, packet by pointer; the result is freed once and cleared |
| NanBinding.NanWorker.WorkComplete | src/node_unbound.cc:490-569 | without an error message the OK path runs; with one the callback gets only an Error carrying it and the result stays for the destructor |
| NanBinding.NanWorker.Destroy | src/node_unbound.cc:478-488 | afterwards the name has been freed exactly once and the result at most once |
| NanBinding.ResolveChecks | src/node_unbound.cc:571-587 | the arguments pass exactly when they are a string, two numbers and a function; otherwise the first failing check's TypeError, in the order name, type, class |
| NanBinding.NanResolve | src/node_unbound.cc:571-616 | a worker exists exactly when the arguments are well typed and `strdup` succeeds; it owns the name up to its first NUL, as `strdup` copies it, and the type and class agree with the arguments modulo 2^32; otherwise the check's error or "Could not allocate memory." |
| NanBinding.CallbackMatchesPromise | src/node_unbound.cc:504-542 | unless the packet is present and empty, both bindings hand over the same array |
| UnboundJs.Default | lib/unbound.js:72-78 | a default applies exactly when the argument is undefined |
| UnboundJs.LibErrorPrefix | lib/unbound.js:55-64 | every formatted library error starts with "libunbound:" and the binding's TypeError does not |
| UnboundJs.FromItems | lib/unbound.js:125-141 | field i of the result is `items[i]`, for all 14 positions |
| UnboundJs.FromItemsOfFields | lib/unbound.js:125-141 | rebuilding a result from its own fields gives the same result |
| UnboundJs.FieldsOfFromItems | lib/unbound.js:125-141 | a 14-item array is recovered whole from the result built on it |
| UnboundJs.UnboundResult.SetMsg | lib/unbound.js:143-149 | `msg` reads and writes `answerPacket` and no other field |
| UnboundJs.UnboundResult.SetReason | lib/unbound.js:151-157 | `reason` reads and writes `whyBogus` and no other field |
| UnboundJs.Callback | lib/unbound.js:103-110 | an error rejects the promise; otherwise it is fulfilled with the result built on the items |
| UnboundJs.ResultOfConversion | lib/unbound.js:100-158 | the array the worker hands over becomes a result whose fields, read in order, are that array; each of the fourteen is the converted `ub_result` field; `msg` is the packet and `reason` the bogus explanation |
| UnboundJs.SecureAnswer | lib/unbound.js:143-157 | a secure, non-bogus answer with no reason and a non-empty packet gives `secure` true, `bogus` false, `reason` null and `msg` a non-empty buffer |
| UnboundJs.Unbound.constructor | lib/unbound.js:16-19 | `finalized` starts false |
| UnboundJs.Unbound.SetOption | lib/unbound.js:21-32 | the library receives the name with its colon and the encoded value; a non-string name throws "First argument must be a string.", a value with no string form "Second argument must be a string.", neither making a call; a non-zero code throws the library error; success returns `this`; the outcome is exactly the binding's `Invoke` |
| UnboundJs.Unbound.GetOption | lib/unbound.js:34-53 | the library is asked for the name with its colon exactly when it is a string; success returns the decoded value; a library error is thrown |
| UnboundJs.Unbound.HasOption | lib/unbound.js:55-64 | for a string name, true exactly when the read succeeds and false exactly when the library fails; the TypeError for a non-string name is rethrown |
| UnboundJs.Unbound.TryOption | lib/unbound.js:66-70 | the option is written only when it can be read; the result is `this` unless the write throws, with a value that has no string form throwing "Second argument must be a string." after the read; a non-string name throws before any call |
| UnboundJs.Unbound.SetStub | lib/unbound.js:72-74 | `prime` defaults to false and is passed as `isprime`; a wrong argument throws the TypeError naming it (zone, address, then prime) with no call; a non-zero code throws the library error; success returns `this`; the outcome is exactly the binding's `Invoke` |
| UnboundJs.Unbound.AddTrustAnchorFile | lib/unbound.js:76-78 | `autr` defaults to false; in the corrected reading true selects `ub_ctx_add_ta_autr` and false `ub_ctx_add_ta_file` (see Findings for the code as written); a non-string file or a non-boolean flag throws its TypeError with no call; a non-zero code throws the library error; success returns `this` |
| UnboundJs.Unbound.AddZone | lib/unbound.js:80-83 | sets `finalized`, even when the binding then throws; passes name and type; a non-string name or type throws its TypeError with no call; a non-zero code throws the library error; success returns `this` |
| UnboundJs.Unbound.RemoveZone | lib/unbound.js:85-88 | sets `finalized` and passes the name; a non-string argument throws "First argument must be a string." with no call; a non-zero code throws the library error; success returns `this` |
| UnboundJs.Unbound.AddData | lib/unbound.js:90-93 | sets `finalized` and passes the data; a non-string argument throws "First argument must be a string." with no call; a non-zero code throws the library error; success returns `this` |
| UnboundJs.Unbound.RemoveData | lib/unbound.js:95-98 | sets `finalized` and passes the data; a non-string argument throws "First argument must be a string." with no call; a non-zero code throws the library error; success returns `this` |
| UnboundJs.Unbound.Resolve | lib/unbound.js:100-118 | sets `finalized`; type and class default to 1; the worker gets `fqdn(qname)` up to its first NUL, and a type and class equal to the arguments modulo 2^32; a non-string name, a non-number type or a non-number class rejects the promise with its TypeError, a failed copy with "Could not allocate memory."; otherwise the promise stays pending |

## Left out

- libunbound itself: `ub_resolve`, the `ub_ctx_*` calls, `ub_strerror` and `ub_version` are not modelled. Their answers are parameters.
- NapiBinding.NapiWorker.Complete and NanBinding.NanWorker.WorkComplete require that a `ub_resolve` returning 0 has filled in `*result`. This is libunbound's documented behaviour, which the model takes as given rather than derives.
- N-API and NAN plumbing is not modelled:
  - handle scopes;
  - references;
  - queueing of asynchronous work, and the thread it runs on;
  - deferreds;
  - module registration and the finaliser that deletes a context.
- `Nan::AsyncWorker`'s own dispatch between the OK and error callbacks is stated in `NanBinding.NanWorker.WorkComplete` from the NAN library's documented behaviour. That code is not part of the repository.
- `node_ub_version` in src/node_unbound.c is not modelled. It only returns `ub_version()`, which is library output. Its NAN counterpart is `NanBinding.NanVersion`.
- src/node_unbound_async.cc and src/node_unbound_async.h are not part of this model. They hold a superseded copy of the worker.
- NapiBinding.NapiSetter, NapiBinding.NapiGetOption, NapiBinding.NapiAddTaFile, NapiBinding.NapiResolve: the `CHECK` aborts of src/node_unbound.c:15-22 are not modelled. They end the process on a wrong argument count, a handle that is not an external, a string argument that is not a string, a flag that is not a boolean, or a type or class that is not a number. The parameters are typed, so those inputs cannot be written.
- NapiBinding.NapiSetter: the call is given already chosen. Only `node_ub_add_ta_file` chooses between two calls, and that choice is `NapiBinding.NapiAddTaFile`.
- NanBinding.LibCallOf, NanBinding.Invoke, UnboundJs.Unbound.AddTrustAnchorFile: `AddTrustAnchorFile` follows the corrected reading of its flag, not the code as written. The code as written is `NanBinding.AddTrustAnchorFileAsWritten`, which always makes `ub_ctx_add_ta_file`. `NanBinding.AddTrustAnchorFileDispatch` states that the two differ exactly when the flag is true.
- NapiBinding.Copy: models `napi_get_value_string_utf8` as truncation to 1025 characters. It does not model UTF-8, where a multi-byte character is never split and a longer string can therefore slip under the guard truncated.
- NapiBinding.NapiWorker.Complete: the freeing of the worker and of its result after completion is not modelled.
- NapiBinding.ConvertResult: `values[14]` is built as a sequence of the fourteen slot values, not filled in place. The `napi_set_element` loop that copies it into the result array is kept as a loop.
- NanBinding.NanWorker.HandleOKCallback: `ret->Set(k, …)` is modelled the same way, as the 14-slot sequence.
- JavaScript numbers are integers only. Fractional numbers, exponent spellings, NaN and infinities are not modelled, neither in `setOption`'s `toString(10)` nor in ToUint32.
- Strings with an embedded NUL character reach `ub_resolve` cut at the NUL, and both workers model this with `Libunbound.CString`. The setter and option calls record their strings whole, although the library, reading a `char *`, sees only the text before the first NUL.
- The `len` array of `ub_result` is folded into the lengths of the data buffers. A `len[i]` that disagrees with the buffer it describes is not modelled.
- `UnboundJs.Unbound.constructor`: the `super()` call that may throw is modelled separately, as `NanBinding.NanNew`.
- The `reject(err)` path of `resolve`'s callback receives the Error built by the NAN worker. Its JavaScript identity is not modelled.

## Findings

| source | as written | input that shows it | evidently intended | confidence | as-written member | corrected member |
|---|---|---|---|---|---|---|
| src/node_unbound.cc:319 | `AddTrustAnchorFile` checks that it has exactly two arguments and that the second is a boolean. It then reads the flag from `info[2]`, which is undefined, so the flag is always false and `ub_ctx_add_ta_file` is always called. | `addTrustAnchorFile("root.key", true)` | read the flag from `info[1]`, so that `true` selects `ub_ctx_add_ta_autr` as lib/unbound.js:76-78 and src/node_unbound.c:326-329 do | high; not executed | NanBinding.AddTrustAnchorFileSlip | NanBinding.AddTrustAnchorFileCall |
