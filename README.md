# Guarded counter and single-signer offchain worker

A Dafny model of the two FRAME pallets of a Substrate solochain template.

- `pallets/sign` holds a guarded counter and an offchain worker.
  - The counter is the optional `u32` storage value `Something`. Two signed dispatchable calls change it.
  - `do_something` overwrites `Something` and deposits a `SomethingStored` event.
  - `cause_error` increments it with checked addition. It fails with `NoneValue` when nothing is stored and with `StorageOverflow` at `u32::MAX`.
  - Once per block, the offchain worker enumerates the key-store accounts under the `sign` key type. It insists on exactly one, filters the signer to that account's public key, and signs `b"some_message"` if the signer can sign. It logs the result.
- `pallets/template` holds the same guarded counter without the worker.

Files:

- `primitives.dfy` (module `Primitives`) holds the shared runtime primitives: `uint32` (0 to 2^32-1), `u32::checked_add`, origins, dispatch errors, the event and `DispatchResult`.
- `counter.dfy` (module `GuardedCounter`) is the counter as a pure state machine over `CounterState(something, events)`.
  - It holds the two calls and a dispatcher over a sequence of extrinsics (`Run`).
  - It holds lemmas relating several calls.
- `sign_pallet.dfy` and `template_pallet.dfy` (modules `SignPallet` and `TemplatePallet`) each hold a class `Pallet`.
  - Its fields are `something` and `events`. Its methods update them in place.
  - Each method is proved against the `GuardedCounter` function of the same name.
  - `SignPallet.Pallet.OffchainWorker` has no `modifies` clause, so it provably leaves the counter state alone.
- `signing_worker.dfy` (module `SigningWorker`) is the offchain worker as a function of the key store. It returns three things:
  - the outcome;
  - the requests it put to the key store (`CanSign(filter)`, `SignMessage(filter, message)`);
  - the log lines it wrote.

Modelling choices:

- A call's origin is `Root | Signed(who) | Unsigned`. `ensure_signed` rejects every origin except `Signed`, and the model reports that as FRAME's `BadOrigin`.
- The key store is an input value: `KeyStore(accounts, canSign, sign)`.
  - `canSign` and `sign` are functions of the public keys the signer is filtered to. So "the signer is restricted to that account's key" is stated about the recorded requests.
  - Account ids, public keys and signatures are opaque byte sequences.
- Log lines hold the raw bytes where the source prints their hex encodings.
- The hook `SignPallet.Pallet.OffchainWorker` takes the block number and ignores it, as the source does. The decision function `SigningWorker.OffchainWorker` does not take it.
- On success the worker logs "Account signed" and "Signed message" at info level, after the "Starting offchain worker" line it logs on every run (pallets/sign/src/lib.rs:109,118,120). The model logs the same lines.

## Model

| member | source | states |
|---|---|---|
| `Primitives.CheckedAdd` | pallets/sign/src/lib.rs:96 | The sum is returned exactly when it fits in 32 bits. Otherwise the result is `None`, and no wrap-around value is produced. |
| `GuardedCounter.DoSomething` | pallets/sign/src/lib.rs:78-86 | It succeeds iff the origin is signed. On success `Something` becomes `Some(something)` whatever it was before. The log gains exactly one entry, `SomethingStored { something, who }` with the caller's account, and the old entries are kept. A non-signed origin gets `BadOrigin` with the state and log unchanged. |
| `GuardedCounter.CauseError` | pallets/sign/src/lib.rs:90-101 | It never deposits an event. A non-signed origin gets `BadOrigin`. With nothing stored it returns `NoneValue`, and with `u32::MAX` stored it returns `StorageOverflow`. Below the maximum it returns `Ok` and stores exactly `old + 1`. Every error leaves the whole state unchanged, so no write is partial. |
| `GuardedCounter.StoreThenCauseError` | pallets/sign/src/lib.rs:78-101 | Storing `v` and then calling `cause_error` yields `Some(v + 1)` and `Ok` when `v < u32::MAX`. When `v = u32::MAX` it yields `StorageOverflow` and leaves `u32::MAX` stored. Exactly one event is deposited, by the store. |
| `GuardedCounter.RunEvents` | pallets/sign/src/lib.rs:79-99 | For any sequence of dispatches, the event log is the old log followed by one `SomethingStored` per signed `do_something`, in order. No other call or failure deposits an event. |
| `GuardedCounter.RunAbsent` | pallets/sign/src/lib.rs:81-97 | After any sequence of dispatches, `Something` is absent iff it was absent before and no extrinsic was a signed `do_something`. `cause_error` never initialises it, and nothing removes it. |
| `GuardedCounter.CauseErrorSaturates` | pallets/sign/src/lib.rs:93-98 | `k` signed `cause_error` calls starting from `Some(v)` leave `Some(min(v + k, u32::MAX))` and deposit no event. Once the value reaches the maximum, every further call overflows without writing. |
| `SignPallet.Pallet.constructor` | pallets/sign/src/lib.rs:56-57 | At genesis `Something` is absent and no events exist. |
| `SignPallet.Pallet.DoSomething` | pallets/sign/src/lib.rs:78-86 | The in-place update matches `GuardedCounter.DoSomething`. A signed origin gets `Ok`, the field becomes `Some(something)` and one event naming the caller is appended. Any other origin gets `BadOrigin` and the object is unchanged. |
| `SignPallet.Pallet.CauseError` | pallets/sign/src/lib.rs:90-101 | The in-place update matches `GuardedCounter.CauseError`. The events are unchanged, and on error the object is unchanged. `Ok` happens iff the origin is signed and the old value is present and below `u32::MAX`, and then the field holds `old + 1`. |
| `SignPallet.Pallet.OffchainWorker` | pallets/sign/src/lib.rs:104-129 | The hook computes `SigningWorker.OffchainWorker` of the key store and leaves `Something` and the event log unchanged. |
| `TemplatePallet.Pallet.constructor` | pallets/template/src/lib.rs:59-60 | At genesis `Something` is absent and no events exist. |
| `TemplatePallet.Pallet.DoSomething` | pallets/template/src/lib.rs:81-89 | Same as the `sign` pallet: a signed origin overwrites the value with `something`, gets `Ok` and appends one `SomethingStored { something, who }`. An unsigned origin changes nothing. |
| `TemplatePallet.Pallet.CauseError` | pallets/template/src/lib.rs:93-104 | Same as the `sign` pallet. An absent value gives `NoneValue` and stays absent. `Some(old)` below the maximum becomes exactly `old + 1`. `Some(u32::MAX)` gives `StorageOverflow` with no write. No event is deposited. |
| `SigningWorker.OffchainWorker` | pallets/sign/src/lib.rs:108-129 | The outcome is `NoAccount` iff there are no accounts and `TooMany` iff there are two or more. In both cases the key store is never asked whether it can sign, or to sign. With exactly one account: <ul><li>Every request is filtered to `[that account's public key]`, and the first is `CanSign`.</li><li>Signing is requested iff `canSign` holds, and then it signs `MESSAGE`.</li><li>If `canSign` fails, the outcome is `SkippedCannotSign`.</li><li>If signing returns nothing, the outcome is `CouldntSign`.</li><li>Otherwise the outcome is `Signed` with the LAST returned (account, signature) pair.</li></ul> |
| `SigningWorker.WorkerLog` | pallets/sign/src/lib.rs:109-127 | A run logs exactly one error line if it ends in `NoAccount`, `TooMany` or `CouldntSign`, and none otherwise. The three error lines differ. A skipped run logs only the start line. A signed run logs the start line, then the account id, then the signature, all at info level. |
| `SigningWorker.OnlyFirstTwoInspected` | pallets/sign/src/lib.rs:110-112 | With two or more accounts, appending further accounts does not change the run at all. |

## Left out

- The `crypto` modules and their `AppCrypto` impls (pallets/sign/src/lib.rs:9-34, pallets/template/src/lib.rs:14-39) are left out. They are generated ed25519 type bindings with no logic.
- Ed25519 signing and the internals of `keystore_accounts`, `all_accounts().with_filter`, `can_sign` and `sign_message` are left out. They belong to the external key store, which is an input value here. The model does not constrain how `sign` results relate to the filter.
- SCALE `encode()` and hex encoding of the account id and signature are left out. Both are library serialisation, so the log lines carry the raw bytes.
- `log::info!` / `log::error!` as I/O are not modelled. Logs are the returned `seq<LogEntry>`.
- The FRAME macro plumbing is left out: weights and `Pays::No`, the storage and event declaration machinery, `Config` wiring, and the generated `Call` enum's encoding.
- Events are kept as a plain per-pallet sequence. The model leaves out `frame_system`'s event records, their phase and topics.
- The transactional storage layer is not modelled. No call here writes before it fails, so rollback would have nothing to undo.
- Block scheduling of the offchain worker and its concurrency with dispatch are left out.
