/** The offchain worker of the `sign` pallet as a decision function over the
    key store: it enumerates the accounts held under the `sign` key type,
    insists on exactly one, restricts the signer to that account's public key,
    and signs a fixed message if the key store says it can. It reads no
    pallet storage and returns what it asked of the key store, the outcome
    and the log lines it wrote. */
module SigningWorker {
  import opened Primitives

  type PublicKey = seq<bv8>
  type Signature = seq<bv8>

  /** The key type the worker's accounts are registered under: `b"sign"`.
      Documentation only: `KeyStore.accounts` is already the enumeration
      under this key type, so no member reads it. */
  const KEY_TYPE: seq<bv8> := [0x73, 0x69, 0x67, 0x6e]

  /** The fixed payload the worker signs: `b"some_message"`. */
  const MESSAGE: seq<bv8> := [0x73, 0x6f, 0x6d, 0x65, 0x5f, 0x6d, 0x65, 0x73, 0x73, 0x61, 0x67, 0x65]

  /** A local key-store account: its position, account id and public key. */
  datatype Account = Account(index: nat, id: AccountId, public: PublicKey)

  /** The key store as the worker sees it in one block: the accounts it
      enumerates under `KEY_TYPE`, whether a signer filtered to some public
      keys can sign, and what signing a message with such a signer returns
      (one account and signature per key that signed, possibly none). */
  datatype KeyStore = KeyStore(
    accounts: seq<Account>,
    canSign: seq<PublicKey> -> bool,
    sign: (seq<PublicKey>, seq<bv8>) -> seq<(Account, Signature)>)

  /** A question the worker puts to the key store, with the public keys the
      signer is filtered to. */
  datatype Request = CanSign(filter: seq<PublicKey>) | SignMessage(filter: seq<PublicKey>, message: seq<bv8>)

  /** How a run of the worker ended. */
  datatype Outcome =
    | NoAccount
    | TooMany
    | SkippedCannotSign
    | CouldntSign
    | Signed(account: Account, signature: Signature)
  {
    /** The outcomes the worker reports at error level. */
    predicate IsError() { NoAccount? || TooMany? || CouldntSign? }
  }

  datatype Level = Info | Error

  /** The lines the worker logs; the account id and the signature are kept
      as bytes where the worker prints their hex encodings. */
  datatype LogLine =
    | StartingWorker
    | AccountSigned(id: AccountId)
    | SignedMessage(signature: Signature)
    | CouldntSignLine
    | MoreThanOneAccount
    | NoAccountAvailable

  datatype LogEntry = LogEntry(level: Level, line: LogLine)

  /** Everything one run of the worker produces. */
  datatype Tick = Tick(outcome: Outcome, requests: seq<Request>, log: seq<LogEntry>)

  /** `Iterator::next` over the remaining accounts: the first one and the
      rest, or nothing when none remain. */
  function Next(it: seq<Account>): (Option<Account>, seq<Account>)
  {
    if it == [] then (None, []) else (Some(it[0]), it[1..])
  }

  /** `Vec::pop`: the last element, if any. */
  function Pop<T>(v: seq<T>): Option<T>
  {
    if v == [] then None else Some(v[|v| - 1])
  }

  /** Whether the worker asked the key store to sign. */
  predicate SignRequested(t: Tick)
  {
    exists q :: q in t.requests && q.SignMessage?
  }

  /** The number of error-level lines in a log. */
  function ErrorCount(log: seq<LogEntry>): nat
  {
    if log == [] then 0
    else (if log[0].level == Error then 1 else 0) + ErrorCount(log[1..])
  }

  const Start: LogEntry := LogEntry(Info, StartingWorker)

  /** One run of the offchain worker. The block number the hook is given is
      unused, so this function does not take it. Only the first two
      enumerated accounts are looked at: none, or more than one, ends the run
      with an error line, and the key store is never asked whether it can
      sign, or to sign; with exactly one, every such request is put to
      a signer filtered to that account's public key, signing happens only
      if that signer can sign, and the outcome is the last signature
      returned, or `CouldntSign` when there is none. */
  function OffchainWorker(ks: KeyStore): (t: Tick)
    ensures |t.log| > 0 && t.log[0] == Start
    ensures t.outcome == NoAccount <==> |ks.accounts| == 0
    ensures t.outcome == TooMany <==> |ks.accounts| >= 2
    ensures |ks.accounts| != 1 ==> t.requests == []
    ensures |ks.accounts| == 1 ==>
              var filter := [ks.accounts[0].public];
              |t.requests| > 0 && t.requests[0] == CanSign(filter) &&
              (forall q :: q in t.requests ==> q.filter == filter) &&
              (SignRequested(t) <==> ks.canSign(filter)) &&
              (SignRequested(t) ==> t.requests == [CanSign(filter), SignMessage(filter, MESSAGE)]) &&
              (!ks.canSign(filter) ==> t.outcome == SkippedCannotSign) &&
              (ks.canSign(filter) && ks.sign(filter, MESSAGE) == [] ==> t.outcome == CouldntSign) &&
              (ks.canSign(filter) && ks.sign(filter, MESSAGE) != [] ==>
                 var last := ks.sign(filter, MESSAGE)[|ks.sign(filter, MESSAGE)| - 1];
                 t.outcome == Outcome.Signed(last.0, last.1))
  {
    var (first, rest) := Next(ks.accounts);
    match first
    case Some(account) =>
      if Next(rest).0.None? then
        SingleAccount(ks, account)
      else
        Tick(TooMany, [], [Start, LogEntry(Error, MoreThanOneAccount)])
    case None =>
      Tick(NoAccount, [], [Start, LogEntry(Error, NoAccountAvailable)])
  }

  /** The branch for exactly one account. */
  function SingleAccount(ks: KeyStore, account: Account): Tick
  {
    var filter := [account.public];
    if !ks.canSign(filter) then
      Tick(SkippedCannotSign, [CanSign(filter)], [Start])
    else
      var requests := [CanSign(filter), SignMessage(filter, MESSAGE)];
      match Pop(ks.sign(filter, MESSAGE))
      case Some(signed) =>
        Tick(Outcome.Signed(signed.0, signed.1), requests,
             [Start, LogEntry(Info, AccountSigned(signed.0.id)), LogEntry(Info, SignedMessage(signed.1))])
      case None =>
        Tick(CouldntSign, requests, [Start, LogEntry(Error, CouldntSignLine)])
  }

  /** Each run logs exactly one error line when it ends in an error outcome
      and none otherwise; the three error outcomes log three different
      lines, and a signed run logs the account id and the signature at info
      level. */
  lemma WorkerLog(ks: KeyStore)
    ensures var t := OffchainWorker(ks);
            ErrorCount(t.log) == (if t.outcome.IsError() then 1 else 0) &&
            (t.outcome == NoAccount ==> LogEntry(Error, NoAccountAvailable) in t.log) &&
            (t.outcome == TooMany ==> LogEntry(Error, MoreThanOneAccount) in t.log) &&
            (t.outcome == CouldntSign ==> LogEntry(Error, CouldntSignLine) in t.log) &&
            (t.outcome == SkippedCannotSign ==> t.log == [Start]) &&
            (t.outcome.Signed? ==>
               t.log == [Start, LogEntry(Info, AccountSigned(t.outcome.account.id)),
                         LogEntry(Info, SignedMessage(t.outcome.signature))])
  {
    var t := OffchainWorker(ks);
    assert ErrorCount(t.log) == ErrorCount(t.log[1..]);
    if |t.log| > 1 {
      assert ErrorCount(t.log[1..]) ==
        (if t.log[1].level == Error then 1 else 0) + ErrorCount(t.log[2..]);
    }
    if |t.log| > 2 {
      assert t.log[2..][1..] == [];
    }
  }

  /** Accounts past the second are never looked at: with two or more
      accounts, appending more changes nothing the worker does. */
  lemma OnlyFirstTwoInspected(ks: KeyStore, more: seq<Account>)
    requires |ks.accounts| >= 2
    ensures OffchainWorker(ks.(accounts := ks.accounts + more)) == OffchainWorker(ks)
  {
  }
}
