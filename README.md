# vm-shim host imports, modelled in Dafny

This project models the host-side import shim that a Lea-chain WebAssembly
guest calls into (`shim.base.mjs`). The shim is built once by a factory
(`createShimBase`). The factory refuses a configuration without a random-byte
function. Otherwise it returns an import table whose closures share one mutable
cell, the guest's linear memory. That cell starts empty. `bindInstance` sets it,
and a later call replaces it. Each import reads the cell when it is called:

- `__lea_abort` hands a formatted line number to the abort handler.
- `__lea_log` decodes a byte range of guest memory and prints it.
- `__lea_ubsen` reads two null-terminated strings with `cstring` and reports
  a located violation to the abort handler. With no memory bound, it reports an
  unknown location instead.
- `__lea_randombytes` asks the random-byte function for `len` bytes and copies
  them into guest memory at `ptr`.
- `__execution_limit`, `__address_add` and `__execution_stack_add` only trace
  their arguments.

Files and modules:

- `decimal.dfy` (`Decimal`): how JavaScript renders an integral number in a
  template literal. It comes with a parser and the round trip between the two.
- `guest_memory.dfy` (`GuestMemory`): `cstring` as a method with the source's
  scanning loop. Beside it are the functions that specify which bytes the scan
  selects, and `Overwrite`, the effect of a typed-array `set`.
- `messages.dfy` (`Messages`): the exact texts handed to the abort handler,
  the output utility and the warning channel. Lemmas show that these texts keep
  the numbers they carry.
- `shim.dfy` (`Shim`): the class `ShimBase`, with the memory cell as a field
  and one method per import and per `bindInstance`, plus the factory
  `CreateShimBase`.
- `lifecycle.dfy` (`Lifecycle`): clients that construct, bind and call. They
  prove the construct–bind–observe behaviour from the contracts alone.

How the environment is represented:

- Guest memory is an `array?<bv8>`. `null` stands for "no memory".
- UTF-8 decoding (`TextDecoder`) is a parameter `decode` of type `Decoder`.
  It is left uninterpreted except that empty input decodes to the empty text.
- The random-byte function is a `RandomSource`, a function of the number of
  earlier calls and the requested length. It always returns exactly that many
  bytes. The field `draws` counts the calls, so "the provider was not called"
  can be stated.
- The abort handler, the coloured output utility and `console.warn` are
  recorded as the sequences `aborts`, `output` and `warnings`. They do not exit
  the process or write anywhere.

Two facts about the code shape the model:

- `types/index.d.ts:31` declares a `customEnv` option, but the import table
  built in `shim.base.mjs:76-119` never merges it, so the model has none.
- `bindInstance` (`shim.base.mjs:121-126`) may be called again, and the last
  binding wins.

## Model

| member | source | states |
|---|---|---|
| `Decimal.IntToString` | shim.base.mjs:79-80 | the text of a line number is a numeral: an optional '-' (present exactly for negative numbers) and then digits; it contains no colon and ends in a digit |
| `Decimal.ParseIntToString` | shim.base.mjs:79-80 | reading back the rendered text of any integer gives that integer |
| `Decimal.IntToStringInjective` | shim.base.mjs:96-98 | different numbers are rendered as different texts |
| `GuestMemory.TerminatorIndex` | shim.base.mjs:41-44 | when a zero byte exists at or after `ptr`, the scan stops at the first one: it lies inside the buffer and no byte between `ptr` and it is zero |
| `GuestMemory.CStringBytes` | shim.base.mjs:40-45 | the selected bytes are the ones stored at `ptr`, they contain no zero, a zero byte follows them, and they are empty exactly when the byte at `ptr` is zero |
| `GuestMemory.CStringBytesOf` | shim.base.mjs:40-45 | any zero-free run of bytes stored at `ptr` and followed by a zero byte is exactly what is selected, and the terminator sits right after it |
| `GuestMemory.CStringBytesLocal` | shim.base.mjs:41-45 | the selection depends only on the bytes from `ptr` through the first terminator, not on later bytes or on the buffer's length |
| `GuestMemory.CString` | shim.base.mjs:38-46 | with no memory the result is the empty text; otherwise it is the decoding of exactly the selected bytes; the scan reads exactly the indices from `ptr` through the first terminator and writes nothing |
| `GuestMemory.Overwrite` | shim.base.mjs:106-107 | copying `b` in at `ptr` keeps the length, puts `b` at the positions starting at `ptr`, and leaves every other byte unchanged |
| `Messages.AbortMessage` | shim.base.mjs:80 | reproduces the template literal `[ABORT] at line ${line}` with a newline: the text starts with the tag, ends in a newline, and the line number reads back from between them |
| `Messages.UbsenMessage` | shim.base.mjs:98 | reproduces the template literal `[UBSEN] ${name} at ${filename}:${line}:${column}` with a newline: the name follows the tag verbatim, a colon precedes the column, and the column reads back from before the closing newline |
| `Messages.RandomBytesNotice` | shim.base.mjs:102 | reproduces the trace `[VM] __lea_randombytes requested ${_len} bytes` with a newline: the requested length reads back from between the tag and " bytes" |
| `Messages.ExecutionLimitNotice` | shim.base.mjs:110 | reproduces the `__execution_limit` trace: it starts with the tag naming the hook and `gas_price=`, the gas price reads back right after the tag, and the gas limit reads back from before the closing newline |
| `Messages.AddressAddNotice` | shim.base.mjs:113 | reproduces the `__address_add` trace: it starts with the tag naming the hook and `address_data=`, the address pointer reads back right after the tag, and the size reads back from before the closing newline |
| `Messages.ExecutionStackAddNotice` | shim.base.mjs:116 | reproduces the `__execution_stack_add` trace: it starts with the tag naming the hook and `target_index=`, the target index reads back right after the tag, and the instruction size reads back from before the closing newline |
| `Messages.AbortMessageInjective` | shim.base.mjs:78-81 | the abort message determines the line number it was made from |
| `Messages.UbsenMessageLocation` | shim.base.mjs:94-98 | line and column are recoverable from a located UBSEN message, even when the name or file name contains colons |
| `Messages.UbsenMessagesDistinct` | shim.base.mjs:89-98 | a located UBSEN message never equals the unknown-location message |
| `Shim.ShimBase.constructor` | shim.base.mjs:60-61 | a new shim has no memory bound, has made no provider calls, and has recorded no aborts, output or warnings |
| `Shim.ShimBase.LeaAbort` | shim.base.mjs:78-81 | the abort handler receives exactly one message, `[ABORT] at line <line>` followed by a newline, and nothing else changes |
| `Shim.ShimBase.LeaLog` | shim.base.mjs:82-88 | without memory nothing happens; with memory the decoding of the `len` bytes at `ptr` is printed once in orange; memory is not written |
| `Shim.ShimBase.LeaUbsen` | shim.base.mjs:89-99 | the abort handler receives exactly one message: the unknown-location text without memory, or `[UBSEN] <name> at <file>:<line>:<column>` built from the two C strings at call time |
| `Shim.ShimBase.LeaRandomBytes` | shim.base.mjs:100-108 | the request is traced in blue; without memory the provider is not called; with memory it is called once and memory equals the old memory with exactly its `len` bytes at `ptr`, every other byte unchanged |
| `Shim.ShimBase.ExecutionLimit` | shim.base.mjs:109-111 | only a blue trace naming gas price and gas limit is added; memory and all other state are untouched |
| `Shim.ShimBase.AddressAdd` | shim.base.mjs:112-114 | only a blue trace naming address data and size is added; memory and all other state are untouched |
| `Shim.ShimBase.ExecutionStackAdd` | shim.base.mjs:115-117 | only a blue trace naming target index, instruction data and size is added; memory and all other state are untouched |
| `Shim.ShimBase.BindInstance` | shim.base.mjs:121-126 | the memory cell becomes the instance's exported memory, replacing any earlier binding; one warning is recorded exactly when there is none |
| `Shim.CreateShimBase` | shim.base.mjs:60-74 | construction fails with the configuration error exactly when no random-byte function is given, and then builds nothing; otherwise it returns a fresh shim with no memory bound |
| `Lifecycle.BindThenReadString` | shim.base.mjs:38-46 | after binding a 64-byte memory holding "Hi" and a zero at offset 10, `cstring` at 10 yields the decoding of the two bytes 72, 105 |
| `Lifecycle.BindThenFill` | shim.base.mjs:100-108 | for any provider, after binding a zeroed 64-byte memory, a request for 8 bytes at 0 leaves exactly the provider's first 8 bytes at offsets 0..7 and the byte at 8 unchanged |
| `Lifecycle.ImportsBeforeBinding` | shim.base.mjs:89-103 | before binding, UBSEN reports the unknown location and a random-byte request makes no provider call |
| `Lifecycle.LastBindingWins` | shim.base.mjs:121-126 | after binding two memories in turn, a random-byte request writes the provider's bytes into the memory bound last and leaves the first untouched |

## Left out

- The coloured output utility (`print`, shim.base.mjs:9-30) is not modelled as output. Its ANSI or CSS rendering and its choice between `process.stdout` and `console` are presentation. The model records each message and its colour in `output`.
- The default abort handler (shim.base.mjs:63-70) prints in red and then exits the process or throws. Neither is modelled, and neither is the `onAbort` option that replaces it. The model records the message the handler receives in `aborts`, and execution continues afterwards.
- The `console.warn` in `bindInstance` is recorded in `warnings` rather than printed.
- UTF-8 decoding by `TextDecoder` is a foreign library call. It is the uninterpreted `decode` parameter.
- Typed-array `RangeError`s are not modelled. They arise when `ptr + len` exceeds the buffer, when `ptr` is past its end, or when a pointer or length is negative. The callers' obligation is stated as a precondition instead.
- Pointers and lengths are non-negative (`nat`) in the model: the `ptr`, `len`, `name` and `filename` arguments of `Shim.ShimBase.LeaLog`, `Shim.ShimBase.LeaUbsen` and `Shim.ShimBase.LeaRandomBytes`, and the length in `Messages.RandomBytesNotice`. A wasm `i32` reaches JavaScript signed, so the source also sees negative values. With no memory bound it accepts them: `__lea_randombytes(0, -1)` traces "requested -1 bytes" and returns, and `__lea_log` and `__lea_ubsen` ignore their pointers. With memory bound, a pointer at 2^31 or above arrives negative and the typed-array constructor throws `RangeError` at shim.base.mjs:40, 85 and 106. Neither case is modelled.
- `GuestMemory.CString` requires a zero byte at or after `ptr` inside the buffer. Without one, the source's loop reads `undefined`, which is never `0`, and never stops. The non-terminating case is therefore excluded, not modelled.
- A `RandomSource` stands for the bytes one shim receives from its provider, indexed by that shim's own call count `draws`. In the source one JavaScript provider can serve many shims (`index.node.mjs:15` hands `crypto.randomBytes` to every shim it builds), and two shims never receive the same bytes merely for sharing it. Shims that share one JavaScript provider therefore correspond to different `RandomSource` values; the model does not capture entropy shared across shims.
- `Shim.ShimBase.LeaRandomBytes` requires the provider to return exactly `len` bytes. The source would also accept a shorter result and copy only that prefix, and it would propagate an exception thrown by the provider.
- `Number(...)` conversions are modelled as unbounded integers. Precision loss when converting a BigInt beyond 2^53 is not modelled, nor are `NaN` and `-0`.
- Truthiness checks are collapsed into two cases. `!memory` becomes "the array is null". `typeof config.randomBytesImpl !== 'function'` becomes "no `RandomSource` given".
- Growth of WebAssembly memory, which replaces its buffer, is not modelled. Memory is one fixed-length byte array.
- The `customEnv` option is never merged into the import table by the code, so it has no model.
- The entry points `index.node.mjs` and `index.web.mjs` are left out. They wire in `crypto.randomBytes` and `window.crypto.getRandomValues`, which are foreign entropy sources.
- `build.mjs` (bundling and file I/O) and `types/index.d.ts` (declarations only) are not part of this model.
