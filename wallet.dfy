/**
 * The node account of the wallet: the derivation path of the node key, the
 * derivation itself (a walk from the master key along the parsed path, which
 * starts again at the next index whenever a step yields an invalid child),
 * the cache of the node private key, and the three public getters built on
 * it. Hierarchical-deterministic key derivation, path parsing, elliptic-curve
 * key handling and the transactor factory are not modelled: the wallet holds
 * them as functions it is given.
 */
module NodeWallet {
  import opened Results
  import Decimal

  /** The derivation path of the node key, up to its account index. */
  const NodeKeyPathPrefix: string := "m/44'/60'/0'/0/"

  /** The derivation path for account `index`. */
  function NodeKeyPath(index: nat): string {
    NodeKeyPathPrefix + Decimal.Format(index)
  }

  /** The path for account `index` is the fixed prefix followed by digits that read back as `index`. */
  lemma NodeKeyPathReadsBack(index: nat)
    ensures var p := NodeKeyPath(index);
            && |p| > |NodeKeyPathPrefix| && p[..|NodeKeyPathPrefix|] == NodeKeyPathPrefix
            && Decimal.AllDigits(p[|NodeKeyPathPrefix|..])
            && Decimal.Value(p[|NodeKeyPathPrefix|..]) == index
  {
    assert NodeKeyPath(index)[|NodeKeyPathPrefix|..] == Decimal.Format(index);
  }

  /** Different indices give different paths. */
  lemma NodeKeyPathInjective(i: nat, j: nat)
    requires NodeKeyPath(i) == NodeKeyPath(j)
    ensures i == j
  {
    NodeKeyPathReadsBack(i);
    NodeKeyPathReadsBack(j);
    assert NodeKeyPath(i)[|NodeKeyPathPrefix|..] == NodeKeyPath(j)[|NodeKeyPathPrefix|..];
  }

  /** Key material the model does not look into. */
  datatype ExtendedKey = ExtendedKey(material: seq<bv8>)
  datatype PrivateKey = PrivateKey(scalar: seq<bv8>)
  datatype Address = Address(bytes: seq<bv8>)

  datatype URL = URL(scheme: string, path: string)
  datatype Account = Account(address: Address, url: URL)

  /** The transaction options a transactor carries; gas price and chain id are optional big integers. */
  datatype TransactOpts = TransactOpts(from: Address, gasPrice: Option<nat>, gasLimit: nat)

  /** A failed child step: the distinguished invalid-child error, or any other. */
  datatype ChildError = InvalidChild | ChildFailed(message: string)

  datatype WalletError =
    | NotInitialized
    | InvalidPath(path: string, message: string)
    | InvalidChildAtDepth(depth: nat, message: string)
    | RetriesExhausted
    | PrivateKeyUnavailable(message: string)
    | PublicKeyUnavailable
    | TransactorFailed(message: string)
    | NilPointerPanic

  type ChildFn = (ExtendedKey, nat) -> Result<ExtendedKey, ChildError>
  type ParseFn = string -> Result<seq<nat>, string>

  /** How a walk along a derivation path ends. */
  datatype Walk = Reached(key: ExtendedKey) | HitInvalidChild | FailedAt(depth: nat, message: string)

  /**
   * Following `path` from `key`, the first component being at `depth`: the
   * key at the end, or the first failed step — an invalid child, or another
   * error at a depth inside the path.
   */
  function WalkPath(child: ChildFn, key: ExtendedKey, path: seq<nat>, depth: nat): (w: Walk)
    ensures w.FailedAt? ==> depth <= w.depth < depth + |path|
    ensures path == [] ==> w == Reached(key)
    decreases |path|
  {
    if path == [] then Reached(key)
    else
      match child(key, path[0])
      case Success(next) => WalkPath(child, next, path[1..], depth + 1)
      case Failure(InvalidChild) => HitInvalidChild
      case Failure(ChildFailed(m)) => FailedAt(depth, m)
  }

  /** Account `m` is skipped: its path parses, and walking it meets an invalid child. */
  predicate SkippedAt(mk: ExtendedKey, child: ChildFn, parse: ParseFn, m: nat) {
    var parsed := parse(NodeKeyPath(m));
    parsed.Success? && WalkPath(child, mk, parsed.value, 0) == HitInvalidChild
  }

  /** Account `j` yields `key`: its path parses, and walking it reaches `key`. */
  predicate ReachedAt(mk: ExtendedKey, child: ChildFn, parse: ParseFn, j: nat, key: ExtendedKey) {
    var parsed := parse(NodeKeyPath(j));
    parsed.Success? && WalkPath(child, mk, parsed.value, 0) == Reached(key)
  }

  /**
   * The node key derived from account `index` on, with at most `fuel` moves
   * to the next index: the key and the path that produced it, or the error.
   */
  function DerivedKey(mk: ExtendedKey, child: ChildFn, parse: ParseFn, index: nat, fuel: nat)
    : (r: Result<(ExtendedKey, string), WalletError>)
    ensures r.Failure? ==> r.error.InvalidPath? || r.error.InvalidChildAtDepth? || r.error == RetriesExhausted
    ensures r.Failure? && r.error.InvalidPath? ==> parse(r.error.path).Failure? && r.error.message == parse(r.error.path).error
    decreases fuel
  {
    var p := NodeKeyPath(index);
    match parse(p)
    case Failure(m) => Failure(InvalidPath(p, m))
    case Success(path) =>
      match WalkPath(child, mk, path, 0)
      case Reached(key) => Success((key, p))
      case FailedAt(d, m) => Failure(InvalidChildAtDepth(d, m))
      case HitInvalidChild =>
        if fuel == 0 then Failure(RetriesExhausted)
        else DerivedKey(mk, child, parse, index + 1, fuel - 1)
  }

  /** One step of the derivation, in terms of what happens at account `index`. */
  lemma DerivedKeyStep(mk: ExtendedKey, child: ChildFn, parse: ParseFn, index: nat, fuel: nat)
    ensures SkippedAt(mk, child, parse, index) ==>
              DerivedKey(mk, child, parse, index, fuel)
              == if fuel == 0 then Failure(RetriesExhausted) else DerivedKey(mk, child, parse, index + 1, fuel - 1)
    ensures forall key :: ReachedAt(mk, child, parse, index, key) ==>
              DerivedKey(mk, child, parse, index, fuel) == Success((key, NodeKeyPath(index)))
    ensures DerivedKey(mk, child, parse, index, fuel).Success? && !SkippedAt(mk, child, parse, index) ==>
              ReachedAt(mk, child, parse, index, DerivedKey(mk, child, parse, index, fuel).value.0)
              && DerivedKey(mk, child, parse, index, fuel).value.1 == NodeKeyPath(index)
    ensures DerivedKey(mk, child, parse, index, fuel) == Failure(RetriesExhausted) ==> SkippedAt(mk, child, parse, index)
  {
  }

  /**
   * A derived key comes from the first account at or after `index` that is
   * not skipped: every account before it was skipped, and its path is the one
   * returned.
   */
  lemma {:induction false} DerivedKeyIsFirstReached(mk: ExtendedKey, child: ChildFn, parse: ParseFn, index: nat, fuel: nat)
    returns (j: nat)
    requires DerivedKey(mk, child, parse, index, fuel).Success?
    ensures index <= j <= index + fuel
    ensures DerivedKey(mk, child, parse, index, fuel).value.1 == NodeKeyPath(j)
    ensures ReachedAt(mk, child, parse, j, DerivedKey(mk, child, parse, index, fuel).value.0)
    ensures forall m :: index <= m < j ==> SkippedAt(mk, child, parse, m)
    decreases fuel
  {
    DerivedKeyStep(mk, child, parse, index, fuel);
    if !SkippedAt(mk, child, parse, index) {
      j := index;
    } else {
      j := DerivedKeyIsFirstReached(mk, child, parse, index + 1, fuel - 1);
    }
  }

  /** The path of a derived key is the path of some account. */
  lemma DerivedPathIsAccountPath(mk: ExtendedKey, child: ChildFn, parse: ParseFn, index: nat, fuel: nat)
    requires DerivedKey(mk, child, parse, index, fuel).Success?
    ensures exists j :: DerivedKey(mk, child, parse, index, fuel).value.1 == NodeKeyPath(j)
  {
    var j := DerivedKeyIsFirstReached(mk, child, parse, index, fuel);
  }

  /** Conversely, when the accounts before `j` are skipped and `j` reaches a key, that key and path are derived. */
  lemma {:induction false} FirstReachedIsDerived(mk: ExtendedKey, child: ChildFn, parse: ParseFn, index: nat, fuel: nat,
                                                 j: nat, key: ExtendedKey)
    requires index <= j <= index + fuel
    requires forall m :: index <= m < j ==> SkippedAt(mk, child, parse, m)
    requires ReachedAt(mk, child, parse, j, key)
    ensures DerivedKey(mk, child, parse, index, fuel) == Success((key, NodeKeyPath(j)))
    decreases fuel
  {
    DerivedKeyStep(mk, child, parse, index, fuel);
    if index == j {
      assert ReachedAt(mk, child, parse, index, key);
    } else {
      assert SkippedAt(mk, child, parse, index);
      assert fuel > 0;
      FirstReachedIsDerived(mk, child, parse, index + 1, fuel - 1, j, key);
    }
  }

  /** Running out of retries means every account from `index` to `index + fuel` was skipped. */
  lemma {:induction false} RetriesExhaustedMeansAllSkipped(mk: ExtendedKey, child: ChildFn, parse: ParseFn,
                                                           index: nat, fuel: nat)
    requires DerivedKey(mk, child, parse, index, fuel) == Failure(RetriesExhausted)
    ensures forall m :: index <= m <= index + fuel ==> SkippedAt(mk, child, parse, m)
    decreases fuel
  {
    DerivedKeyStep(mk, child, parse, index, fuel);
    assert SkippedAt(mk, child, parse, index);
    if fuel > 0 {
      RetriesExhaustedMeansAllSkipped(mk, child, parse, index + 1, fuel - 1);
    }
  }

  /**
   * The transactor as `GetNodeAccountTransactor` (node.go:66-69) builds it:
   * the gas settings are written into
   * the factory's result before its error is looked at, so a failing
   * factory (which returns no transactor) makes the write panic.
   */
  function TransactorAsWritten(newTransactor: (PrivateKey, Option<nat>) -> Result<TransactOpts, string>,
                               key: PrivateKey, chainID: Option<nat>, gasPrice: Option<nat>, gasLimit: nat)
    : (r: Result<TransactOpts, WalletError>)
    ensures newTransactor(key, chainID).Failure? ==> r == Failure(NilPointerPanic)
  {
    match newTransactor(key, chainID)
    case Failure(_) => Failure(NilPointerPanic)
    case Success(t) => Success(t.(gasPrice := gasPrice, gasLimit := gasLimit))
  }

  /** A factory that refuses a missing chain id, as the real one does. */
  function RefusesMissingChainID(key: PrivateKey, chainID: Option<nat>): Result<TransactOpts, string> {
    if chainID.None? then Failure("no chain id specified") else Success(TransactOpts(Address([]), None, 0))
  }

  /** With no chain id, `GetNodeAccountTransactor` (node.go:66-69) panics instead of returning the factory's error. */
  lemma MissingChainIDPanics(key: PrivateKey, gasPrice: Option<nat>, gasLimit: nat)
    ensures TransactorAsWritten(RefusesMissingChainID, key, None, gasPrice, gasLimit) == Failure(NilPointerPanic)
    ensures RefusesMissingChainID(key, None) == Failure("no chain id specified")
  {
  }

  /**
   * The transactor as evidently intended: the factory's error is returned,
   * and on success the transactor carries the wallet's gas price and limit
   * and is otherwise the factory's.
   */
  function Transactor(newTransactor: (PrivateKey, Option<nat>) -> Result<TransactOpts, string>,
                      key: PrivateKey, chainID: Option<nat>, gasPrice: Option<nat>, gasLimit: nat)
    : (r: Result<TransactOpts, WalletError>)
    ensures newTransactor(key, chainID).Failure? ==> r == Failure(TransactorFailed(newTransactor(key, chainID).error))
    ensures newTransactor(key, chainID).Success? ==>
              r.Success? && r.value.gasPrice == gasPrice && r.value.gasLimit == gasLimit
              && r.value.from == newTransactor(key, chainID).value.from
  {
    match newTransactor(key, chainID)
    case Failure(m) => Failure(TransactorFailed(m))
    case Success(t) => Success(t.(gasPrice := gasPrice, gasLimit := gasLimit))
  }

  /** The two agree whenever the factory succeeds. */
  lemma TransactorAgreesOnSuccess(newTransactor: (PrivateKey, Option<nat>) -> Result<TransactOpts, string>,
                                  key: PrivateKey, chainID: Option<nat>, gasPrice: Option<nat>, gasLimit: nat)
    requires newTransactor(key, chainID).Success?
    ensures TransactorAsWritten(newTransactor, key, chainID, gasPrice, gasLimit)
            == Transactor(newTransactor, key, chainID, gasPrice, gasLimit)
  {
  }

  /**
   * The wallet's node-account state: the master key (present once the wallet
   * is initialized), the chain and gas settings, and the cached node key with
   * its path.
   */
  class Wallet {
    const child: ChildFn
    const parsePath: ParseFn
    const ecPrivKey: ExtendedKey -> Result<PrivateKey, string>
    /** The address of the key's public key, or nothing when the public key is not an ECDSA key. */
    const publicAddress: PrivateKey -> Option<Address>
    const keyBytes: PrivateKey -> seq<bv8>
    const newTransactor: (PrivateKey, Option<nat>) -> Result<TransactOpts, string>
    /** How many times derivation may move on to the next account. */
    const retryBound: nat

    var mk: Option<ExtendedKey>
    var chainID: Option<nat>
    var gasPrice: Option<nat>
    var gasLimit: nat
    var nodeKey: Option<PrivateKey>
    var nodeKeyPath: string

    /** The node key and its path as derived afresh from account 0, ignoring the cache. */
    function FreshNodeKey(): (r: Result<(PrivateKey, string), WalletError>)
      reads this
      requires mk.Some?
      ensures r.Success? ==> exists j :: r.value.1 == NodeKeyPath(j)
    {
      match DerivedKey(mk.value, child, parsePath, 0, retryBound)
      case Failure(e) => Failure(e)
      case Success((key, path)) =>
        DerivedPathIsAccountPath(mk.value, child, parsePath, 0, retryBound);
        match ecPrivKey(key)
        case Failure(m) => Failure(PrivateKeyUnavailable(m))
        case Success(pk) => Success((pk, path))
    }

    /**
     * Uncached derivation starts at account 0: the node key's path is that of
     * the first account that is not skipped.
     */
    lemma NodeKeyIsFirstAccount() returns (j: nat)
      requires mk.Some? && FreshNodeKey().Success?
      ensures j <= retryBound
      ensures FreshNodeKey().value.1 == NodeKeyPath(j)
      ensures forall m: nat :: m < j ==> SkippedAt(mk.value, child, parsePath, m)
    {
      j := DerivedKeyIsFirstReached(mk.value, child, parsePath, 0, retryBound);
    }

    /** The cache, when filled, holds what a fresh derivation gives. */
    predicate Valid()
      reads this
    {
      nodeKey.Some? ==> mk.Some? && FreshNodeKey() == Success((nodeKey.value, nodeKeyPath))
    }

    constructor (child: ChildFn, parsePath: ParseFn, ecPrivKey: ExtendedKey -> Result<PrivateKey, string>,
                 publicAddress: PrivateKey -> Option<Address>, keyBytes: PrivateKey -> seq<bv8>,
                 newTransactor: (PrivateKey, Option<nat>) -> Result<TransactOpts, string>, retryBound: nat,
                 mk: Option<ExtendedKey>, chainID: Option<nat>, gasPrice: Option<nat>, gasLimit: nat)
      ensures Valid()
      ensures this.child == child && this.parsePath == parsePath && this.ecPrivKey == ecPrivKey
      ensures this.publicAddress == publicAddress && this.keyBytes == keyBytes
      ensures this.newTransactor == newTransactor && this.retryBound == retryBound
      ensures this.mk == mk && this.chainID == chainID && this.gasPrice == gasPrice && this.gasLimit == gasLimit
      ensures nodeKey.None?
    {
      this.child := child;
      this.parsePath := parsePath;
      this.ecPrivKey := ecPrivKey;
      this.publicAddress := publicAddress;
      this.keyBytes := keyBytes;
      this.newTransactor := newTransactor;
      this.retryBound := retryBound;
      this.mk := mk;
      this.chainID := chainID;
      this.gasPrice := gasPrice;
      this.gasLimit := gasLimit;
      nodeKey := None;
      nodeKeyPath := "";
    }

    /**
     * The derived key and path for account `index`: walk the parsed path from
     * the master key; an invalid child at any depth starts again from the
     * master key at the next account (at most `fuel` times), any other child
     * error names its depth.
     */
    method GetNodeDerivedKey(index: nat, fuel: nat) returns (r: Result<(ExtendedKey, string), WalletError>)
      requires mk.Some?
      ensures r == DerivedKey(mk.value, child, parsePath, index, fuel)
      decreases fuel
    {
      var derivationPath := NodeKeyPath(index);
      var parsed := parsePath(derivationPath);
      if parsed.Failure? {
        return Failure(InvalidPath(derivationPath, parsed.error));
      }
      var path := parsed.value;
      var key := mk.value;
      for i := 0 to |path|
        invariant WalkPath(child, mk.value, path, 0) == WalkPath(child, key, path[i..], i)
      {
        assert path[i..][1..] == path[i + 1..];
        var step := child(key, path[i]);
        match step
        case Success(next) =>
          key := next;
        case Failure(InvalidChild) =>
          if fuel == 0 {
            return Failure(RetriesExhausted);
          }
          r := GetNodeDerivedKey(index + 1, fuel - 1);
          return;
        case Failure(ChildFailed(m)) =>
          return Failure(InvalidChildAtDepth(i, m));
      }
      return Success((key, derivationPath));
    }

    /**
     * The node private key and its path: the cached pair when there is one,
     * otherwise derived from account 0 and then cached. The result is always
     * what a fresh derivation gives; a failure leaves the cache alone.
     */
    method GetNodePrivateKey() returns (r: Result<(PrivateKey, string), WalletError>)
      requires Valid() && mk.Some?
      modifies this`nodeKey, this`nodeKeyPath
      ensures Valid()
      ensures r == FreshNodeKey()
      ensures old(nodeKey).Some? ==> r == Success((old(nodeKey).value, old(nodeKeyPath)))
                                     && nodeKey == old(nodeKey) && nodeKeyPath == old(nodeKeyPath)
      ensures r.Success? ==> nodeKey == Some(r.value.0) && nodeKeyPath == r.value.1
      ensures r.Failure? ==> nodeKey == old(nodeKey) && nodeKeyPath == old(nodeKeyPath)
    {
      if nodeKey.Some? {
        return Success((nodeKey.value, nodeKeyPath));
      }
      var derived := GetNodeDerivedKey(0, retryBound);
      if derived.Failure? {
        return Failure(derived.error);
      }
      var (key, path) := derived.value;
      var privateKey := ecPrivKey(key);
      if privateKey.Failure? {
        return Failure(PrivateKeyUnavailable(privateKey.error));
      }
      nodeKey := Some(privateKey.value);
      nodeKeyPath := path;
      return Success((privateKey.value, path));
    }

    /** The node account: the address of the node key, and a URL with no scheme whose path is the key's derivation path. */
    function NodeAccount(): (r: Result<Account, WalletError>)
      reads this
      ensures mk.None? ==> r == Failure(NotInitialized)
      ensures r.Success? ==> r.value.url.scheme == "" && exists j :: r.value.url.path == NodeKeyPath(j)
    {
      if mk.None? then Failure(NotInitialized)
      else
        match FreshNodeKey()
        case Failure(e) => Failure(e)
        case Success((key, path)) =>
          match publicAddress(key)
          case None => Failure(PublicKeyUnavailable)
          case Some(address) => Success(Account(address, URL("", path)))
    }

    method GetNodeAccount() returns (r: Result<Account, WalletError>)
      requires Valid()
      modifies this`nodeKey, this`nodeKeyPath
      ensures Valid()
      ensures r == NodeAccount()
      ensures mk.None? ==> nodeKey == old(nodeKey) && nodeKeyPath == old(nodeKeyPath)
      ensures mk.Some? && FreshNodeKey().Success? ==>
                nodeKey == Some(FreshNodeKey().value.0) && nodeKeyPath == FreshNodeKey().value.1
      ensures mk.Some? && FreshNodeKey().Failure? ==> nodeKey == old(nodeKey) && nodeKeyPath == old(nodeKeyPath)
      ensures r.Success? ==> nodeKey.Some? && r.value.url.path == nodeKeyPath
                             && publicAddress(nodeKey.value) == Some(r.value.address)
    {
      if mk.None? {
        return Failure(NotInitialized);
      }
      var key := GetNodePrivateKey();
      if key.Failure? {
        return Failure(key.error);
      }
      var (privateKey, path) := key.value;
      var address := publicAddress(privateKey);
      if address.None? {
        return Failure(PublicKeyUnavailable);
      }
      return Success(Account(address.value, URL("", path)));
    }

    /** The node transactor, with the factory's error returned rather than a panic. */
    function NodeTransactor(): (r: Result<TransactOpts, WalletError>)
      reads this
      ensures mk.None? ==> r == Failure(NotInitialized)
      ensures r.Success? ==> r.value.gasPrice == gasPrice && r.value.gasLimit == gasLimit
    {
      if mk.None? then Failure(NotInitialized)
      else
        match FreshNodeKey()
        case Failure(e) => Failure(e)
        case Success((key, _)) => Transactor(newTransactor, key, chainID, gasPrice, gasLimit)
    }

    method GetNodeAccountTransactor() returns (r: Result<TransactOpts, WalletError>)
      requires Valid()
      modifies this`nodeKey, this`nodeKeyPath
      ensures Valid()
      ensures r == NodeTransactor()
      ensures mk.None? ==> nodeKey == old(nodeKey) && nodeKeyPath == old(nodeKeyPath)
      ensures mk.Some? && FreshNodeKey().Success? ==>
                nodeKey == Some(FreshNodeKey().value.0) && nodeKeyPath == FreshNodeKey().value.1
      ensures mk.Some? && FreshNodeKey().Failure? ==> nodeKey == old(nodeKey) && nodeKeyPath == old(nodeKeyPath)
    {
      if mk.None? {
        return Failure(NotInitialized);
      }
      var key := GetNodePrivateKey();
      if key.Failure? {
        return Failure(key.error);
      }
      r := Transactor(newTransactor, key.value.0, chainID, gasPrice, gasLimit);
    }

    /** The serialized node private key. */
    function NodePrivateKeyBytes(): (r: Result<seq<bv8>, WalletError>)
      reads this
      ensures mk.None? ==> r == Failure(NotInitialized)
      ensures mk.Some? ==> (r.Success? <==> FreshNodeKey().Success?)
      ensures r.Success? ==> r.value == keyBytes(FreshNodeKey().value.0)
    {
      if mk.None? then Failure(NotInitialized)
      else
        match FreshNodeKey()
        case Failure(e) => Failure(e)
        case Success((key, _)) => Success(keyBytes(key))
    }

    method GetNodePrivateKeyBytes() returns (r: Result<seq<bv8>, WalletError>)
      requires Valid()
      modifies this`nodeKey, this`nodeKeyPath
      ensures Valid()
      ensures r == NodePrivateKeyBytes()
      ensures mk.None? ==> nodeKey == old(nodeKey) && nodeKeyPath == old(nodeKeyPath)
      ensures mk.Some? && FreshNodeKey().Success? ==>
                nodeKey == Some(FreshNodeKey().value.0) && nodeKeyPath == FreshNodeKey().value.1
      ensures mk.Some? && FreshNodeKey().Failure? ==> nodeKey == old(nodeKey) && nodeKeyPath == old(nodeKeyPath)
    {
      if mk.None? {
        return Failure(NotInitialized);
      }
      var key := GetNodePrivateKey();
      if key.Failure? {
        return Failure(key.error);
      }
      return Success(keyBytes(key.value.0));
    }
  }
}
