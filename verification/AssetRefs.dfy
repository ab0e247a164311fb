/**
 Saving and deleting image references at the same time. Transactions that check
 an object exists, write a reference and commit run beside transactions that look
 for references and delete the object; an advisory lock per key keeps them apart.
 Every statement that can be interleaved is a step.
 */
module AssetRefs {
  import opened Options
  import opened Storage

  // -------------------------------------------------- one submitted image

  datatype Decision = Keep | Ignore | Apply | BadKey

  /** `decide_image_change`; `BadKey` is the AssetKeyError it raises. */
  function Decide(schema: string, folder: string, sent: Option<string>, baseProvided: bool,
                  base: Option<string>, current: Option<string>, isCreation: bool): Decision
  {
    if sent.None? || sent == current then Keep
    else if IsManaged(sent.value) && !ValidKey(sent.value, schema, folder) then BadKey
    else if isCreation then Apply
    else if !baseProvided || base != current then Ignore
    else Apply
  }

  /** Of two forms opened on the same image, the second to arrive never replaces
      what the first one applied. */
  lemma StaleFormNeverApplies(schema: string, folder: string, base: Option<string>, first: string,
                              second: Option<string>)
    requires Decide(schema, folder, Some(first), true, base, base, false) == Apply
    ensures Decide(schema, folder, second, true, base, Some(first), false) != Apply
    ensures second.Some? && second.value != first
            && (IsManaged(second.value) ==> ValidKey(second.value, schema, folder)) ==>
              Decide(schema, folder, second, true, base, Some(first), false) == Ignore
  {
  }

  // ------------------------------------------------------------- data model

  /** Where a reference is stored. */
  datatype Source = Products | Payments | Receipts | Logos

  function FolderOf(source: Source): string {
    match source
    case Products => PRODUCTS
    case Payments => PAYMENT_METHODS
    case Receipts => RECEIPTS
    case Logos => LOGO
  }

  /** One reference of one business: a product image, one image field of a
      payment method, a receipt, or the logo. */
  datatype Row = Row(source: Source, schema: string, value: Option<string>)

  /** A reference to be applied once its key is locked and its object seen. */
  datatype Want = Want(row: int, target: Row, locked: bool)

  datatype Tx =
    | Saver(seen: map<int, Row>, writes: map<int, Row>, want: Option<Want>)
    | Deleter(schema: string, key: string, stage: nat)
    | Receipt(row: int, target: Row)

  /** Bucket prefixes, the hash that names a key's advisory lock, and whether a client
      may send any address, also one that passes as of another origin and would still
      settle on a key that is missing or may be deleted. */
  datatype Env = Env(prefixes: seq<string>, hash: string -> int, nested: bool)

  datatype State = State(rows: map<int, Row>, objects: set<string>, locks: map<int, int>, txs: map<int, Tx>)

  // ---------------------------------------------------------- whose key it is

  /** Keys that some deletion may name. */
  ghost predicate Deletable(key: string) {
    exists schema, folder :: folder in {PRODUCTS, LOGO} && PlainSchema(schema) && ValidKey(key, schema, folder)
  }

  /** A reference the module answers for: a key of the row's own business. */
  predicate Owns(row: Row) {
    row.value.Some?
    && exists folder | folder in {PRODUCTS, LOGO, PAYMENT_METHODS, RECEIPTS} ::
         ValidKey(row.value.value, row.schema, folder)
  }

  /** The row's value settles on a key of its own business, and saves that keep the
      image may write that key without locking it: products and the logo when they
      spell it differently, payment methods always. */
  predicate Exposed(env: Env, row: Row) {
    var key := Settled(env.prefixes, row.value);
    && Owns(row.(value := key))
    && (row.source == Payments || (row.source in {Products, Logos} && row.value != key))
  }

  /** Then the object must exist, in a folder from which nothing is deleted. */
  ghost predicate Harmless(env: Env, objects: set<string>, row: Row) {
    Exposed(env, row) ==>
      var key := Settled(env.prefixes, row.value).value; key in objects && !Deletable(key)
  }

  // ------------------------------------------------------------------ steps

  datatype Step =
    | Upload(key: string)
    | Remove(row: int)
    | BeginSave(tx: int)
    | Read(tx: int, row: int)
    | Resolve(tx: int, row: int, blank: Row, raw: Option<string>, baseProvided: bool, base: Option<string>)
    | Lock(tx: int)
    | Verify(tx: int, answered: bool)
    | Commit(tx: int)
    | Abort(tx: int)
    | BeginDelete(tx: int, value: Option<string>, schema: string, folder: string)
    | Scan(tx: int)
    | Delete(tx: int, happens: bool)
    | BeginReceipt(tx: int, row: int, schema: string, value: Option<string>)

  function Release(locks: map<int, int>, tx: int): map<int, int> {
    map h | h in locks && locks[h] != tx :: locks[h]
  }

  /** The transaction ends and its locks are freed. */
  function End(s: State, tx: int): State {
    s.(locks := Release(s.locks, tx), txs := s.txs - {tx})
  }

  predicate Free(env: Env, s: State, key: string, tx: int) {
    env.hash(key) !in s.locks || s.locks[env.hash(key)] == tx
  }

  /** The four reads of `is_key_referenced`, in order. */
  const SCANS := [Products, Payments, Receipts, Logos]

  /** Would the read of `source` find `row`? The three tables of a business are
      read in its schema, logos in all of them. */
  predicate Finds(env: Env, source: Source, schema: string, key: string, row: Row) {
    && row.source == source
    && (source == Logos || row.schema == schema)
    && row.value.Some?
    && if source == Payments then Normalize(env.prefixes, row.value) == Some(key)
       else row.value.value in Candidates(env.prefixes, key)
  }

  predicate FindsAny(env: Env, source: Source, schema: string, key: string, rows: map<int, Row>) {
    exists r | r in rows :: Finds(env, source, schema, key, rows[r])
  }

  predicate IsSaver(s: State, tx: int) { tx in s.txs && s.txs[tx].Saver? }
  predicate IsDeleter(s: State, tx: int) { tx in s.txs && s.txs[tx].Deleter? }

  /** The row that a save starts from: a new one, or the one it has read. */
  function Stored(s: State, tx: int, row: int, blank: Row): Row
    requires IsSaver(s, tx)
  {
    if row in s.txs[tx].seen then s.txs[tx].seen[row] else blank.(value := None)
  }

  /** A new address that passes as one of another origin leaves a harmless row. */
  ghost predicate Admitted(env: Env, objects: set<string>, stored: Row, sent: Option<string>) {
    sent.Some? && !IsManaged(sent.value) && sent != Normalize(env.prefixes, stored.value) ==>
      Harmless(env, objects, stored.(value := sent))
  }

  ghost predicate Enabled(env: Env, s: State, step: Step) {
    match step
    case Upload(_) => true
    case Remove(row) => true
    case BeginSave(tx) => tx !in s.txs
    case Read(tx, row) => IsSaver(s, tx) && row in s.rows
    case Resolve(tx, row, blank, raw, _, base) =>
      // A creation brings a new row, an edit the row it has read.
      && IsSaver(s, tx) && s.txs[tx].want.None?
      && (env.nested || Admitted(env, s.objects, Stored(s, tx, row, blank), Normalize(env.prefixes, raw)))
      && (row in s.txs[tx].seen || (row !in s.rows && PlainSchema(blank.schema) && blank.source != Receipts))
      && (row in s.txs[tx].seen ==> s.txs[tx].seen[row].source != Receipts)
    case Lock(tx) =>
      IsSaver(s, tx) && s.txs[tx].want.Some? && !s.txs[tx].want.value.locked
      && s.txs[tx].want.value.target.value.Some?
      && Free(env, s, s.txs[tx].want.value.target.value.value, tx)
    case Verify(tx, _) =>
      IsSaver(s, tx) && s.txs[tx].want.Some? && s.txs[tx].want.value.locked
      && s.txs[tx].want.value.target.value.Some?
    case Commit(tx) =>
      tx in s.txs && (s.txs[tx].Receipt? || (s.txs[tx].Saver? && s.txs[tx].want.None?))
    case Abort(tx) => tx in s.txs
    case BeginDelete(tx, value, schema, folder) =>
      && tx !in s.txs && PlainSchema(schema) && folder in {PRODUCTS, LOGO}
      && DeletableKey(env.prefixes, value, schema, folder).Some?
    case Scan(tx) =>
      IsDeleter(s, tx) && s.txs[tx].stage <= |SCANS|
      && (s.txs[tx].stage == 0 ==> Free(env, s, s.txs[tx].key, tx))
    case Delete(tx, _) => IsDeleter(s, tx) && s.txs[tx].stage == |SCANS| + 1
    case BeginReceipt(tx, row, schema, value) =>
      // `resolve_receipt_key`: normal form, own folder, existing object; no lock.
      && tx !in s.txs && PlainSchema(schema)
      && var key := Normalize(env.prefixes, value);
      && key.Some? && IsManaged(key.value) && ValidKey(key.value, schema, RECEIPTS) && key.value in s.objects
  }

  /** What the caller writes for each decision: products and logos are only
      rewritten when the stored spelling differs from the one sent; a payment
      method's fields are always written back. */
  function ResolveStep(env: Env, s: State, tx: int, row: int, blank: Row,
                       sent: Option<string>, baseProvided: bool, base: Option<string>): State
    requires IsSaver(s, tx)
  {
    var saver := s.txs[tx];
    var isCreation, stored := row !in saver.seen, Stored(s, tx, row, blank);
    var target := stored.(value := sent);
    var current := Normalize(env.prefixes, stored.value);
    match Decide(stored.schema, FolderOf(stored.source), sent, baseProvided, base, current, isCreation)
    case BadKey => End(s, tx)
    case Keep =>
      if isCreation then s.(txs := s.txs[tx := saver.(writes := saver.writes[row := target])])
      else if stored.source == Payments then
        var kept := if sent.Some? || current.None? || (baseProvided && base == current) then target else stored;
        s.(txs := s.txs[tx := saver.(writes := saver.writes[row := kept])])
      else if sent.Some? && stored.value != sent then
        s.(txs := s.txs[tx := saver.(writes := saver.writes[row := target])])
      else s
    case Ignore =>
      if stored.source == Payments then
        var kept := if current.None? then stored.(value := None) else stored;
        s.(txs := s.txs[tx := saver.(writes := saver.writes[row := kept])])
      else s
    case Apply =>
      if IsManaged(sent.value) then s.(txs := s.txs[tx := saver.(want := Some(Want(row, target, false)))])
      else s.(txs := s.txs[tx := saver.(writes := saver.writes[row := target])])
  }

  function Next(env: Env, s: State, step: Step): State
    requires Enabled(env, s, step)
  {
    match step
    case Upload(key) => s.(objects := s.objects + {key})
    case Remove(row) => s.(rows := s.rows - {row})
    case BeginSave(tx) => s.(txs := s.txs[tx := Saver(map[], map[], None)])
    case Read(tx, row) =>
      s.(txs := s.txs[tx := s.txs[tx].(seen := s.txs[tx].seen[row := s.rows[row]])])
    case Resolve(tx, row, blank, raw, baseProvided, base) =>
      ResolveStep(env, s, tx, row, blank, Normalize(env.prefixes, raw), baseProvided, base)
    case Lock(tx) =>
      var want := s.txs[tx].want.value;
      s.(locks := s.locks[env.hash(want.target.value.value) := tx],
         txs := s.txs[tx := s.txs[tx].(want := Some(want.(locked := true)))])
    case Verify(tx, answered) =>
      var want := s.txs[tx].want.value;
      if answered && want.target.value.value in s.objects then
        s.(txs := s.txs[tx := s.txs[tx].(writes := s.txs[tx].writes[want.row := want.target], want := None)])
      else End(s, tx)
    case Commit(tx) =>
      if s.txs[tx].Receipt? then End(s.(rows := s.rows[s.txs[tx].row := s.txs[tx].target]), tx)
      else End(s.(rows := s.rows + s.txs[tx].writes), tx)
    case Abort(tx) => End(s, tx)
    case BeginDelete(tx, value, schema, folder) =>
      s.(txs := s.txs[tx := Deleter(schema, DeletableKey(env.prefixes, value, schema, folder).value, 0)])
    case Scan(tx) =>
      var d := s.txs[tx];
      if d.stage == 0 then s.(locks := s.locks[env.hash(d.key) := tx], txs := s.txs[tx := d.(stage := 1)])
      else if FindsAny(env, SCANS[d.stage - 1], d.schema, d.key, s.rows) then End(s, tx)
      else s.(txs := s.txs[tx := d.(stage := d.stage + 1)])
    case Delete(tx, happens) =>
      End(if happens then s.(objects := s.objects - {s.txs[tx].key}) else s, tx)
    case BeginReceipt(tx, row, schema, value) =>
      s.(txs := s.txs[tx := Receipt(row, Row(Receipts, schema, Normalize(env.prefixes, value)))])
  }

  // -------------------------------------------------------------- invariant

  /** The promise: no committed reference of that kind names a missing object. */
  predicate Safe(s: State) {
    forall r | r in s.rows && Owns(s.rows[r]) :: s.rows[r].value.value in s.objects
  }

  ghost predicate Tidy(env: Env, objects: set<string>, row: Row) {
    PlainSchema(row.schema) && Harmless(env, objects, row)
  }

  predicate Holds(env: Env, s: State, key: string, tx: int) {
    env.hash(key) in s.locks && s.locks[env.hash(key)] == tx
  }

  /** What an uncommitted write may contain. */
  ghost predicate WriteOk(env: Env, s: State, tx: int, row: Row) {
    && Tidy(env, s.objects, row)
    && (Owns(row) ==> row.value.value in s.objects)
    && (Owns(row) && Deletable(row.value.value) ==> Holds(env, s, row.value.value, tx))
  }

  ghost predicate WantOk(env: Env, s: State, tx: int, want: Want) {
    && PlainSchema(want.target.schema) && want.target.source != Receipts
    && want.target.value.Some?
    && ValidKey(want.target.value.value, want.target.schema, FolderOf(want.target.source))
    && (want.locked ==> Holds(env, s, want.target.value.value, tx))
  }

  ghost predicate SaverOk(env: Env, s: State, tx: int, saver: Tx)
    requires saver.Saver?
  {
    && (forall r | r in saver.seen :: Tidy(env, s.objects, saver.seen[r]))
    && (forall r | r in saver.writes :: WriteOk(env, s, tx, saver.writes[r]))
    && (saver.want.Some? ==> WantOk(env, s, tx, saver.want.value))
  }

  /** Deleters hold the lock from the first scan on, and what they scanned still
      does not mention the key. */
  ghost predicate DeleterOk(env: Env, s: State, tx: int, d: Tx)
    requires d.Deleter?
  {
    && PlainSchema(d.schema) && d.stage <= |SCANS| + 1
    && (ValidKey(d.key, d.schema, PRODUCTS) || ValidKey(d.key, d.schema, LOGO))
    && (d.stage >= 1 ==> Holds(env, s, d.key, tx))
    && (forall i, r | 0 <= i < d.stage - 1 && r in s.rows && s.rows[r].source == SCANS[i] ::
          s.rows[r].value == Some(d.key) ==> s.rows[r].schema != d.schema)
  }

  ghost predicate ReceiptOk(env: Env, s: State, target: Row) {
    && Tidy(env, s.objects, target) && target.source == Receipts
    && target.value.Some? && ValidKey(target.value.value, target.schema, RECEIPTS)
    && target.value.value in s.objects
  }

  ghost predicate TxOk(env: Env, s: State, tx: int) {
    tx in s.txs ==>
      match s.txs[tx]
      case Saver(_, _, _) => SaverOk(env, s, tx, s.txs[tx])
      case Deleter(_, _, _) => DeleterOk(env, s, tx, s.txs[tx])
      case Receipt(_, target) => ReceiptOk(env, s, target)
  }

  ghost predicate Inv(env: Env, s: State) {
    && Safe(s)
    && (forall r | r in s.rows :: Tidy(env, s.objects, s.rows[r]))
    && (forall tx :: TxOk(env, s, tx))
  }

  // ---------------------------------------------------------- key separation

  /** Keys outside the two folders are never deleted. */
  lemma NotDeletable(key: string, schema: string, folder: string)
    requires folder in {PAYMENT_METHODS, RECEIPTS} && ValidKey(key, schema, folder)
    ensures !Deletable(key)
  {
    forall s2, f2 | f2 in {PRODUCTS, LOGO} && PlainSchema(s2) && ValidKey(key, s2, f2) ensures false {
      KeyNamesOnePlace(key, schema, folder, s2, f2);
    }
  }

  /** An owned deletable key sits in the business that may delete it. */
  lemma OwnerOfDeletable(row: Row, schema: string, folder: string)
    requires Owns(row) && folder in {PRODUCTS, LOGO} && ValidKey(row.value.value, schema, folder)
    ensures row.schema == schema
  {
    var f :| f in {PRODUCTS, LOGO, PAYMENT_METHODS, RECEIPTS} && ValidKey(row.value.value, row.schema, f);
    KeyNamesOnePlace(row.value.value, row.schema, f, schema, folder);
  }

  // ------------------------------------------------- every step keeps it

  /** A transaction the step did not touch, when rows stay, objects are only
      added and its locks are still its own. */
  lemma Untouched(env: Env, s: State, s': State, tx: int)
    requires TxOk(env, s, tx)
    requires tx in s'.txs ==> tx in s.txs && s'.txs[tx] == s.txs[tx]
    requires s'.rows == s.rows && s.objects <= s'.objects
    requires forall h | h in s.locks && s.locks[h] == tx :: h in s'.locks && s'.locks[h] == tx
    ensures TxOk(env, s', tx)
  {
    forall key | Holds(env, s, key, tx) ensures Holds(env, s', key, tx) {
      var h := env.hash(key);
      assert h in s.locks && s.locks[h] == tx;
    }
    if tx in s'.txs && s.txs[tx].Saver? {
      var saver := s.txs[tx];
      forall r | r in saver.writes ensures WriteOk(env, s', tx, saver.writes[r]) {
        assert WriteOk(env, s, tx, saver.writes[r]);
      }
      forall r | r in saver.seen ensures Tidy(env, s'.objects, saver.seen[r]) {
        assert Tidy(env, s.objects, saver.seen[r]);
      }
    }
  }

  lemma UploadKeeps(env: Env, s: State, key: string)
    requires Inv(env, s)
    ensures Inv(env, s.(objects := s.objects + {key}))
  {
    forall tx ensures TxOk(env, s.(objects := s.objects + {key}), tx) {
      Untouched(env, s, s.(objects := s.objects + {key}), tx);
    }
  }

  lemma EndKeeps(env: Env, s: State, tx: int)
    requires Inv(env, s)
    ensures Inv(env, End(s, tx))
  {
    forall t ensures TxOk(env, End(s, tx), t) {
      if t != tx { Untouched(env, s, End(s, tx), t); }
    }
  }

  /** One transaction changes its own record, and perhaps takes a free lock. */
  lemma OneTx(env: Env, s: State, s': State, tx: int)
    requires Inv(env, s)
    requires s'.rows == s.rows && s'.objects == s.objects
    requires tx in s'.txs && s'.txs == s.txs[tx := s'.txs[tx]]
    requires forall h | h in s.locks && s.locks[h] != tx :: h in s'.locks && s'.locks[h] == s.locks[h]
    requires TxOk(env, s', tx)
    ensures Inv(env, s')
  {
    forall t ensures TxOk(env, s', t) {
      if t != tx { Untouched(env, s, s', t); }
    }
  }

  lemma RemoveKeeps(env: Env, s: State, row: int)
    requires Inv(env, s)
    ensures Inv(env, s.(rows := s.rows - {row}))
  {
    var s' := s.(rows := s.rows - {row});
    forall tx ensures TxOk(env, s', tx) {
      assert TxOk(env, s, tx);
      if tx in s.txs && s.txs[tx].Saver? { SaverElsewhere(env, s, s', tx); }
    }
  }

  /** Savers and receipts do not look at the committed rows again. */
  lemma SaverElsewhere(env: Env, s: State, s': State, tx: int)
    requires TxOk(env, s, tx) && tx in s.txs && s.txs[tx].Saver?
    requires tx in s'.txs && s'.txs[tx] == s.txs[tx] && s'.objects == s.objects
    requires forall h | h in s.locks && s.locks[h] == tx :: h in s'.locks && s'.locks[h] == tx
    ensures TxOk(env, s', tx)
  {
    Untouched(env, s, s'.(rows := s.rows), tx);
    var saver := s.txs[tx];
    forall r | r in saver.writes ensures WriteOk(env, s', tx, saver.writes[r]) {
      assert WriteOk(env, s'.(rows := s.rows), tx, saver.writes[r]);
    }
    forall r | r in saver.seen ensures Tidy(env, s'.objects, saver.seen[r]) {
      assert Tidy(env, s'.objects, saver.seen[r]);
    }
  }

  lemma ReadKeeps(env: Env, s: State, tx: int, row: int)
    requires Inv(env, s) && Enabled(env, s, Read(tx, row))
    ensures Inv(env, Next(env, s, Read(tx, row)))
  {
    var s' := Next(env, s, Read(tx, row));
    assert TxOk(env, s, tx);
    assert SaverOk(env, s, tx, s.txs[tx]);
    assert Tidy(env, s.objects, s.rows[row]);
    assert SaverOk(env, s', tx, s'.txs[tx]) by {
      forall r | r in s'.txs[tx].seen ensures Tidy(env, s'.objects, s'.txs[tx].seen[r]) {
        assert r == row || Tidy(env, s.objects, s.txs[tx].seen[r]);
      }
      forall r | r in s'.txs[tx].writes ensures WriteOk(env, s', tx, s'.txs[tx].writes[r]) {
        assert WriteOk(env, s, tx, s.txs[tx].writes[r]);
      }
    }
    OneTx(env, s, s', tx);
  }

  /** A saver that adds one admissible write, or takes on one admissible wish. */
  lemma SaverGrows(env: Env, s: State, s': State, tx: int)
    requires Inv(env, s) && IsSaver(s, tx) && IsSaver(s', tx)
    requires s' == s.(txs := s.txs[tx := s'.txs[tx]])
    requires s'.txs[tx].seen == s.txs[tx].seen
    requires forall r | r in s'.txs[tx].writes ::
               || (r in s.txs[tx].writes && s'.txs[tx].writes[r] == s.txs[tx].writes[r])
               || WriteOk(env, s, tx, s'.txs[tx].writes[r])
    requires s'.txs[tx].want.Some? ==> WantOk(env, s, tx, s'.txs[tx].want.value)
    ensures Inv(env, s')
  {
    assert TxOk(env, s, tx);
    assert SaverOk(env, s, tx, s.txs[tx]);
    assert SaverOk(env, s', tx, s'.txs[tx]) by {
      forall r | r in s'.txs[tx].seen ensures Tidy(env, s'.objects, s'.txs[tx].seen[r]) {
        assert Tidy(env, s.objects, s.txs[tx].seen[r]);
      }
      forall r | r in s'.txs[tx].writes ensures WriteOk(env, s', tx, s'.txs[tx].writes[r]) {
        assert WriteOk(env, s, tx, s'.txs[tx].writes[r]);
      }
    }
    OneTx(env, s, s', tx);
  }

  lemma BeginKeeps(env: Env, s: State, step: Step)
    requires Addresses(env.prefixes) && Inv(env, s) && Enabled(env, s, step)
    requires step.BeginSave? || step.BeginDelete? || step.BeginReceipt?
    ensures Inv(env, Next(env, s, step))
  {
    var s' := Next(env, s, step);
    if step.BeginReceipt? {
      var key := Normalize(env.prefixes, step.value).value;
      ValidKeyIsNormal(env.prefixes, key, step.schema, RECEIPTS);
    }
    OneTx(env, s, s', step.tx);
  }

  lemma LockKeeps(env: Env, s: State, tx: int)
    requires Inv(env, s) && Enabled(env, s, Lock(tx))
    ensures Inv(env, Next(env, s, Lock(tx)))
  {
    var s' := Next(env, s, Lock(tx));
    Untouched(env, s, s'.(txs := s.txs), tx);
    var saver, saver' := s.txs[tx], s'.txs[tx];
    forall r | r in saver'.writes ensures WriteOk(env, s', tx, saver'.writes[r]) {
      assert WriteOk(env, s'.(txs := s.txs), tx, saver.writes[r]);
    }
    forall r | r in saver'.seen ensures Tidy(env, s'.objects, saver'.seen[r]) {
      assert Tidy(env, s'.objects, saver.seen[r]);
    }
    OneTx(env, s, s', tx);
  }

  /** What an address of another origin cannot be. */
  lemma ForeignIsHarmless(row: Row)
    requires PlainSchema(row.schema) && row.value.Some? && !IsManaged(row.value.value)
    ensures !Owns(row) && !Deletable(row.value.value)
  {
    forall schema, folder | KnownFolder(folder) && PlainSchema(schema)
      ensures !ValidKey(row.value.value, schema, folder)
    {
      if ValidKey(row.value.value, schema, folder) { ValidKeyShape(row.value.value, schema, folder); }
    }
  }

  /** What a save that keeps the image may write: the row in normal form. */
  lemma KeptIsOk(env: Env, s: State, tx: int, stored: Row)
    requires Addresses(env.prefixes) && Tidy(env, s.objects, stored) && stored.source != Receipts
    requires stored.source in {Products, Logos} ==> stored.value != Normalize(env.prefixes, stored.value)
    ensures WriteOk(env, s, tx, stored.(value := Normalize(env.prefixes, stored.value)))
  {
    var target := stored.(value := Normalize(env.prefixes, stored.value));
    SettledOnce(env.prefixes, stored.value);
    if Owns(target) { OwnedSettles(env, target); }
    SettledIsFixed(env.prefixes, stored.value);
  }

  lemma OwnedIsNormal(env: Env, row: Row)
    requires Addresses(env.prefixes) && PlainSchema(row.schema) && Owns(row)
    ensures Normalize(env.prefixes, row.value) == row.value
  {
    var folder :|
      folder in {PRODUCTS, LOGO, PAYMENT_METHODS, RECEIPTS} && ValidKey(row.value.value, row.schema, folder);
    ValidKeyIsNormal(env.prefixes, row.value.value, row.schema, folder);
  }

  lemma OwnedSettles(env: Env, row: Row)
    requires Addresses(env.prefixes) && PlainSchema(row.schema) && Owns(row)
    ensures Settled(env.prefixes, row.value) == row.value
  {
    OwnedIsNormal(env, row);
  }

  /** A row without a value exposes nothing. */
  lemma BlankIsOk(env: Env, s: State, tx: int, row: Row)
    requires PlainSchema(row.schema) && row.value == None
    ensures WriteOk(env, s, tx, row)
  {
  }

  /** Nor does an admitted address of another origin. */
  lemma ForeignIsOk(env: Env, s: State, tx: int, row: Row)
    requires PlainSchema(row.schema) && row.value.Some? && !IsManaged(row.value.value)
    requires Harmless(env, s.objects, row)
    ensures WriteOk(env, s, tx, row)
  {
    ForeignIsHarmless(row);
  }

  lemma ResolveKeeps(env: Env, s: State, tx: int, row: int, blank: Row,
                     raw: Option<string>, baseProvided: bool, base: Option<string>)
    requires Addresses(env.prefixes) && !env.nested
    requires Inv(env, s) && Enabled(env, s, Resolve(tx, row, blank, raw, baseProvided, base))
    ensures Inv(env, Next(env, s, Resolve(tx, row, blank, raw, baseProvided, base)))
  {
    var sent := Normalize(env.prefixes, raw);
    var s' := ResolveStep(env, s, tx, row, blank, sent, baseProvided, base);
    var saver := s.txs[tx];
    var isCreation, stored := row !in saver.seen, Stored(s, tx, row, blank);
    var current := Normalize(env.prefixes, stored.value);
    assert TxOk(env, s, tx);
    StoredIsTidy(env, s, tx, row, blank);
    match Decide(stored.schema, FolderOf(stored.source), sent, baseProvided, base, current, isCreation) {
      case BadKey => EndKeeps(env, s, tx);
      case Apply =>
        if !IsManaged(sent.value) { ForeignIsOk(env, s, tx, stored.(value := sent)); }
        SaverGrows(env, s, s', tx);
      case _ => KeepingKeeps(env, s, tx, row, blank, sent, baseProvided, base);
    }
  }

  /** What a save writes that does not change the image. */
  lemma KeepingKeeps(env: Env, s: State, tx: int, row: int, blank: Row,
                     sent: Option<string>, baseProvided: bool, base: Option<string>)
    requires Addresses(env.prefixes) && Inv(env, s) && IsSaver(s, tx) && s.txs[tx].want.None?
    requires SaverOk(env, s, tx, s.txs[tx])
    requires Tidy(env, s.objects, Stored(s, tx, row, blank)) && Stored(s, tx, row, blank).source != Receipts
    requires var stored := Stored(s, tx, row, blank);
             Decide(stored.schema, FolderOf(stored.source), sent, baseProvided, base,
                    Normalize(env.prefixes, stored.value), row !in s.txs[tx].seen) in {Keep, Ignore}
    ensures Inv(env, ResolveStep(env, s, tx, row, blank, sent, baseProvided, base))
  {
    var stored := Stored(s, tx, row, blank);
    if sent.None? || sent == Normalize(env.prefixes, stored.value) { MayKeep(env, s, tx, stored, sent); }
    if stored.source == Payments { MayStay(env, s, tx, stored); }
    SaverGrows(env, s, ResolveStep(env, s, tx, row, blank, sent, baseProvided, base), tx);
  }

  lemma StoredIsTidy(env: Env, s: State, tx: int, row: int, blank: Row)
    requires IsSaver(s, tx) && SaverOk(env, s, tx, s.txs[tx])
    requires row in s.txs[tx].seen || PlainSchema(blank.schema)
    ensures Tidy(env, s.objects, Stored(s, tx, row, blank))
  {
  }

  lemma MayKeep(env: Env, s: State, tx: int, stored: Row, sent: Option<string>)
    requires Addresses(env.prefixes) && Tidy(env, s.objects, stored) && stored.source != Receipts
    requires sent.None? || sent == Normalize(env.prefixes, stored.value)
    ensures stored.source == Payments || sent.None? || stored.value != sent ==>
              WriteOk(env, s, tx, stored.(value := sent))
  {
    if sent.None? { BlankIsOk(env, s, tx, stored.(value := None)); }
    else if stored.source == Payments || stored.value != sent { KeptIsOk(env, s, tx, stored); }
  }

  lemma MayStay(env: Env, s: State, tx: int, stored: Row)
    requires Addresses(env.prefixes) && Tidy(env, s.objects, stored) && stored.source == Payments
    ensures WriteOk(env, s, tx, stored)
  {
    if Owns(stored) { OwnedSettles(env, stored); }
  }

  lemma VerifyKeeps(env: Env, s: State, tx: int, answered: bool)
    requires Addresses(env.prefixes) && Inv(env, s) && Enabled(env, s, Verify(tx, answered))
    ensures Inv(env, Next(env, s, Verify(tx, answered)))
  {
    var target := s.txs[tx].want.value.target;
    assert TxOk(env, s, tx);
    if answered && target.value.value in s.objects {
      ValidKeyIsNormal(env.prefixes, target.value.value, target.schema, FolderOf(target.source));
      if target.source == Payments { NotDeletable(target.value.value, target.schema, PAYMENT_METHODS); }
      SaverGrows(env, s, Next(env, s, Verify(tx, answered)), tx);
    } else {
      EndKeeps(env, s, tx);
    }
  }

  /** The key a deleter holds is not written by anybody else for its business. */
  lemma DeleterExcludesWriters(env: Env, s: State, d: int, tx: int, row: Row)
    requires tx != d && TxOk(env, s, d) && IsDeleter(s, d) && s.txs[d].stage >= 1
    requires WriteOk(env, s, tx, row) && row.schema == s.txs[d].schema
    ensures row.value != Some(s.txs[d].key)
  {
    var t := s.txs[d];
    var folder := if ValidKey(t.key, t.schema, PRODUCTS) then PRODUCTS else LOGO;
    assert ValidKey(t.key, t.schema, folder);
    assert Deletable(t.key);
  }

  lemma OwnedIsAnother(env: Env, s: State, d: int, tx: int, row: Row)
    requires tx != d && TxOk(env, s, d) && IsDeleter(s, d) && s.txs[d].stage >= 1
    requires WriteOk(env, s, tx, row)
    ensures Owns(row) ==> row.value.value != s.txs[d].key
  {
    if Owns(row) && row.schema == s.txs[d].schema {
      DeleterExcludesWriters(env, s, d, tx, row);
    } else if Owns(row) {
      var folder := if ValidKey(s.txs[d].key, s.txs[d].schema, PRODUCTS) then PRODUCTS else LOGO;
      if ValidKey(row.value.value, s.txs[d].schema, folder) { OwnerOfDeletable(row, s.txs[d].schema, folder); }
    }
  }

  lemma CommitRows(env: Env, s: State, tx: int, rows: map<int, Row>)
    requires Inv(env, s) && (forall r | r in rows :: WriteOk(env, s, tx, rows[r]))
    ensures Inv(env, End(s.(rows := s.rows + rows), tx))
  {
    var s1 := s.(rows := s.rows + rows);
    EndKeeps(env, s, tx);
    var e, e1 := End(s, tx), End(s1, tx);
    forall t ensures TxOk(env, e1, t) {
      assert TxOk(env, e, t) && TxOk(env, s, t);
      if t in e.txs && e.txs[t].Saver? { SaverElsewhere(env, e, e1, t); }
      if IsDeleter(e, t) && e.txs[t].stage >= 1 {
        forall r | r in rows && rows[r].schema == e.txs[t].schema ensures rows[r].value != Some(e.txs[t].key) {
          DeleterExcludesWriters(env, s, t, tx, rows[r]);
        }
      }
    }
  }

  lemma CommitKeeps(env: Env, s: State, tx: int)
    requires Inv(env, s) && Enabled(env, s, Commit(tx))
    ensures Inv(env, Next(env, s, Commit(tx)))
  {
    assert TxOk(env, s, tx);
    if s.txs[tx].Receipt? {
      var row, target := s.txs[tx].row, s.txs[tx].target;
      NotDeletable(target.value.value, target.schema, RECEIPTS);
      CommitRows(env, s, tx, map[row := target]);
      assert s.rows + map[row := target] == s.rows[row := target];
    } else {
      CommitRows(env, s, tx, s.txs[tx].writes);
    }
  }

  lemma ScanKeeps(env: Env, s: State, tx: int)
    requires Addresses(env.prefixes) && Inv(env, s) && Enabled(env, s, Scan(tx))
    ensures Inv(env, Next(env, s, Scan(tx)))
  {
    var d := s.txs[tx];
    var s' := Next(env, s, Scan(tx));
    assert TxOk(env, s, tx);
    if d.stage == 0 {
      OneTx(env, s, s', tx);
    } else if FindsAny(env, SCANS[d.stage - 1], d.schema, d.key, s.rows) {
      EndKeeps(env, s, tx);
    } else {
      ScanMissesNothing(env, s, d);
      OneTx(env, s, s', tx);
    }
  }

  /** A read that finds nothing leaves no row of its source that mentions the key. */
  lemma ScanMissesNothing(env: Env, s: State, d: Tx)
    requires Addresses(env.prefixes) && d.Deleter? && 1 <= d.stage <= |SCANS| && PlainSchema(d.schema)
    requires ValidKey(d.key, d.schema, PRODUCTS) || ValidKey(d.key, d.schema, LOGO)
    requires !FindsAny(env, SCANS[d.stage - 1], d.schema, d.key, s.rows)
    ensures forall r | r in s.rows && s.rows[r].source == SCANS[d.stage - 1] && s.rows[r].value == Some(d.key) ::
              s.rows[r].schema != d.schema
  {
    ValidKeyIsNormal(env.prefixes, d.key, d.schema, if ValidKey(d.key, d.schema, PRODUCTS) then PRODUCTS else LOGO);
    assert Candidates(env.prefixes, d.key)[0] == d.key;
    forall r | r in s.rows ensures !Finds(env, SCANS[d.stage - 1], d.schema, d.key, s.rows[r]) {}
  }

  /** Deleting after four empty scans removes no object anybody still needs. */
  lemma DeleteKeeps(env: Env, s: State, tx: int, happens: bool)
    requires Inv(env, s) && Enabled(env, s, Delete(tx, happens))
    ensures Inv(env, Next(env, s, Delete(tx, happens)))
  {
    var d := s.txs[tx];
    var s' := if happens then s.(objects := s.objects - {d.key}) else s;
    assert TxOk(env, s, tx);
    var folder := if ValidKey(d.key, d.schema, PRODUCTS) then PRODUCTS else LOGO;
    assert Deletable(d.key);
    forall r | r in s.rows && Owns(s.rows[r]) ensures s.rows[r].value != Some(d.key) {
      var i := match s.rows[r].source case Products => 0 case Payments => 1 case Receipts => 2 case Logos => 3;
      assert SCANS[i] == s.rows[r].source;
      if ValidKey(s.rows[r].value.value, d.schema, folder) { OwnerOfDeletable(s.rows[r], d.schema, folder); }
    }
    forall t ensures TxOk(env, s', t) {
      assert TxOk(env, s, t);
      if t in s.txs && s.txs[t].Saver? { SaverSurvivesDelete(env, s, tx, t); }
      if t in s.txs && s.txs[t].Receipt? {
        NotDeletable(s.txs[t].target.value.value, s.txs[t].target.schema, RECEIPTS);
      }
    }
    EndKeeps(env, s', tx);
  }

  lemma SaverSurvivesDelete(env: Env, s: State, d: int, t: int)
    requires IsDeleter(s, d) && s.txs[d].stage >= 1 && TxOk(env, s, d)
    requires IsSaver(s, t) && TxOk(env, s, t)
    ensures TxOk(env, s.(objects := s.objects - {s.txs[d].key}), t)
  {
    var key := s.txs[d].key;
    var s' := s.(objects := s.objects - {key});
    var folder := if ValidKey(key, s.txs[d].schema, PRODUCTS) then PRODUCTS else LOGO;
    assert ValidKey(key, s.txs[d].schema, folder);
    assert Deletable(key);
    forall r | r in s.txs[t].writes ensures WriteOk(env, s', t, s.txs[t].writes[r]) {
      assert WriteOk(env, s, t, s.txs[t].writes[r]);
      OwnedIsAnother(env, s, d, t, s.txs[t].writes[r]);
    }
    forall r | r in s.txs[t].seen ensures Tidy(env, s'.objects, s.txs[t].seen[r]) {
      assert Tidy(env, s.objects, s.txs[t].seen[r]);
    }
    assert SaverOk(env, s, t, s.txs[t]);
  }

  // -------------------------------------------------------------- whole runs

  /** Any interleaving is a sequence of enabled steps. */
  ghost function Exec(env: Env, s: State, steps: seq<Step>): Option<State>
    decreases |steps|
  {
    if steps == [] then Some(s)
    else if Enabled(env, s, steps[0]) then Exec(env, Next(env, s, steps[0]), steps[1..])
    else None
  }

  lemma StepKeeps(env: Env, s: State, step: Step)
    requires Addresses(env.prefixes) && !env.nested && Inv(env, s) && Enabled(env, s, step)
    ensures Inv(env, Next(env, s, step))
  {
    match step
    case Upload(key) => UploadKeeps(env, s, key);
    case Remove(row) => RemoveKeeps(env, s, row);
    case BeginSave(_) => BeginKeeps(env, s, step);
    case BeginDelete(_, _, _, _) => BeginKeeps(env, s, step);
    case BeginReceipt(_, _, _, _) => BeginKeeps(env, s, step);
    case Read(tx, row) => ReadKeeps(env, s, tx, row);
    case Resolve(tx, row, blank, raw, baseProvided, base) =>
      ResolveKeeps(env, s, tx, row, blank, raw, baseProvided, base);
    case Lock(tx) => LockKeeps(env, s, tx);
    case Verify(tx, answered) => VerifyKeeps(env, s, tx, answered);
    case Commit(tx) => CommitKeeps(env, s, tx);
    case Abort(tx) => EndKeeps(env, s, tx);
    case Scan(tx) => ScanKeeps(env, s, tx);
    case Delete(tx, happens) => DeleteKeeps(env, s, tx, happens);
  }

  lemma {:induction false} RunKeeps(env: Env, s: State, steps: seq<Step>)
    requires Addresses(env.prefixes) && !env.nested && Inv(env, s) && Exec(env, s, steps).Some?
    ensures Inv(env, Exec(env, s, steps).value)
    decreases |steps|
  {
    if steps != [] {
      StepKeeps(env, s, steps[0]);
      RunKeeps(env, Next(env, s, steps[0]), steps[1..]);
    }
  }

  /** A database at rest. */
  predicate AtRest(s: State) { s.locks == map[] && s.txs == map[] }

  /** Every run ends safely: no interleaving of saves, receipts, uploads, removals
      and deletions leaves a committed reference of a business to one of its own
      keys without its object. */
  ghost predicate AlwaysSafe(env: Env, start: State) {
    forall steps | Exec(env, start, steps).Some? :: Safe(Exec(env, start, steps).value)
  }

  /** Enough for that: every row a save may rewrite without a lock stands for an
      object that exists and is never deleted. */
  lemma NoDanglingReference(env: Env, start: State)
    requires Addresses(env.prefixes) && !env.nested
    requires AtRest(start) && Safe(start) && forall r | r in start.rows :: Tidy(env, start.objects, start.rows[r])
    ensures AlwaysSafe(env, start)
  {
    forall steps | Exec(env, start, steps).Some? ensures Safe(Exec(env, start, steps).value) {
      RunKeeps(env, start, steps);
    }
  }

  // ------------------------------------------------------- runs step by step

  lemma {:induction false} ExecConcat(env: Env, s: State, a: seq<Step>, b: seq<Step>)
    requires Exec(env, s, a).Some?
    ensures Exec(env, s, a + b) == Exec(env, Exec(env, s, a).value, b)
    decreases |a|
  {
    if a == [] {
      assert a + b == b;
    } else {
      ExecConcat(env, Next(env, s, a[0]), a[1..], b);
      assert (a + b)[1..] == a[1..] + b;
    }
  }

  ghost predicate Leads(env: Env, s: State, step: Step, s': State) {
    Enabled(env, s, step) && Next(env, s, step) == s'
  }

  function Before(s: State, states: seq<State>, i: nat): State
    requires i <= |states|
  {
    if i == 0 then s else states[i - 1]
  }

  /** A run given by the states it passes through. */
  lemma {:induction false} Chain(env: Env, s: State, steps: seq<Step>, states: seq<State>)
    requires |steps| == |states|
    requires forall i | 0 <= i < |steps| :: Leads(env, Before(s, states, i), steps[i], states[i])
    ensures Exec(env, s, steps) == Some(Before(s, states, |states|))
    decreases |steps|
  {
    if steps != [] {
      assert Leads(env, Before(s, states, 0), steps[0], states[0]);
      forall i | 0 <= i < |steps| - 1
        ensures Leads(env, Before(states[0], states[1..], i), steps[1..][i], states[1..][i])
      {
        assert Leads(env, Before(s, states, i + 1), steps[i + 1], states[i + 1]);
      }
      Chain(env, states[0], steps[1..], states[1..]);
    }
  }

  lemma Pick<T>(s: set<T>) returns (x: T)
    requires s != {}
    ensures x in s
  {
    x :| x in s;
  }

  /** A run throughout which row `r` is `row`. */
  ghost predicate Stays(env: Env, s: State, steps: seq<Step>, r: int, row: Row)
    decreases |steps|
  {
    && r in s.rows && s.rows[r] == row
    && (steps != [] ==> Enabled(env, s, steps[0]) && Stays(env, Next(env, s, steps[0]), steps[1..], r, row))
  }

  lemma StaysCons(env: Env, s: State, step: Step, s': State, rest: seq<Step>, r: int, row: Row)
    requires r in s.rows && s.rows[r] == row && Leads(env, s, step, s') && Stays(env, s', rest, r, row)
    ensures Stays(env, s, [step] + rest, r, row)
  {
    assert ([step] + rest)[1..] == rest;
  }

  lemma StaysFront(env: Env, s: State, steps: seq<Step>, r: int, row: Row) returns (s': State)
    requires Stays(env, s, steps, r, row) && steps != []
    ensures r in s.rows && s.rows[r] == row && Leads(env, s, steps[0], s')
    ensures Stays(env, s', steps[1..], r, row) && Exec(env, s, steps) == Exec(env, s', steps[1..])
  {
    s' := Next(env, s, steps[0]);
  }

  lemma {:induction false} StaysConcat(
    env: Env, s: State, a: seq<Step>, mid: State, b: seq<Step>, r: int, row: Row)
    requires Stays(env, s, a, r, row) && Exec(env, s, a) == Some(mid) && Stays(env, mid, b, r, row)
    ensures Stays(env, s, a + b, r, row)
    decreases |a|
  {
    if a == [] {
      assert a + b == b;
    } else {
      var s' := StaysFront(env, s, a, r, row);
      StaysConcat(env, s', a[1..], mid, b, r, row);
      StaysCons(env, s, a[0], s', a[1..] + b, r, row);
      assert [a[0]] + (a[1..] + b) == a + b;
    }
  }

  lemma {:induction false} ChainStays(env: Env, s: State, steps: seq<Step>, states: seq<State>, r: int)
    requires |steps| == |states| && r in s.rows
    requires forall i | 0 <= i < |steps| :: Leads(env, Before(s, states, i), steps[i], states[i])
    requires forall i | 0 <= i < |states| :: states[i].rows == s.rows
    ensures Stays(env, s, steps, r, s.rows[r])
    decreases |steps|
  {
    if steps != [] {
      assert Leads(env, Before(s, states, 0), steps[0], states[0]);
      forall i | 0 <= i < |steps| - 1
        ensures Leads(env, Before(states[0], states[1..], i), steps[1..][i], states[1..][i])
      {
        assert Leads(env, Before(s, states, i + 1), steps[i + 1], states[i + 1]);
      }
      ChainStays(env, states[0], steps[1..], states[1..], r);
    }
  }

  /** All rows but one can go. */
  lemma {:induction false} ClearOthers(env: Env, s: State, r: int) returns (steps: seq<Step>)
    requires r in s.rows
    ensures Exec(env, s, steps) == Some(s.(rows := map[r := s.rows[r]]))
    ensures Stays(env, s, steps, r, s.rows[r])
    decreases s.rows.Keys
  {
    if s.rows.Keys - {r} != {} {
      var q := Pick(s.rows.Keys - {r});
      var s' := Next(env, s, Remove(q));
      assert q !in s'.rows.Keys && s'.rows.Keys < s.rows.Keys;
      var rest := ClearOthers(env, s', r);
      steps := [Remove(q)] + rest;
      assert steps[1..] == rest;
    } else {
      assert s.rows.Keys == (s.rows.Keys - {r}) + {r} == {r};
      assert s.rows == map[r := s.rows[r]];
      steps := [];
    }
  }

  function Reading(tx: int, r: int): seq<Step> { [BeginSave(tx), Read(tx, r)] }

  lemma ReadingRuns(env: Env, s: State, tx: int, r: int)
    requires tx !in s.txs && r in s.rows
    ensures Exec(env, s, Reading(tx, r)) == Some(s.(txs := s.txs[tx := Saver(map[r := s.rows[r]], map[], None)]))
  {
    var s1 := Next(env, s, BeginSave(tx));
    var s2 := Next(env, s1, Read(tx, r));
    assert s2.txs == s.txs[tx := Saver(map[r := s.rows[r]], map[], None)];
    var states := [s1, s2];
    forall i | 0 <= i < 2 ensures Leads(env, Before(s, states, i), Reading(tx, r)[i], states[i]) {}
    Chain(env, s, Reading(tx, r), states);
  }

  function Saving(tx: int, r: int, sent: string, base: Option<string>): seq<Step> {
    [Resolve(tx, r, Row(Products, "", None), Some(sent), true, base), Lock(tx), Verify(tx, true), Commit(tx)]
  }

  /** A transaction that has read `row` may apply another uploaded image to it. */
  predicate MaySave(env: Env, s: State, tx: int, r: int, row: Row, sent: string) {
    && s.locks == map[] && tx in s.txs && s.txs[tx] == Saver(map[r := row], map[], None)
    && PlainSchema(row.schema) && row.source != Receipts
    && sent in s.objects && ValidKey(sent, row.schema, FolderOf(row.source))
    && Normalize(env.prefixes, row.value) != Some(sent)
  }

  function MidSave(env: Env, s: State, tx: int, r: int, row: Row, sent: string, i: nat): State {
    var target := row.(value := Some(sent));
    if i == 0 then s
    else if i >= 4 then s.(rows := s.rows[r := target], txs := s.txs - {tx})
    else s.(locks := if i >= 2 then map[env.hash(sent) := tx] else map[],
            txs := s.txs[tx := if i == 1 then Saver(map[r := row], map[], Some(Want(r, target, false)))
                               else if i == 2 then Saver(map[r := row], map[], Some(Want(r, target, true)))
                               else Saver(map[r := row], map[r := target], None)])
  }

  lemma SavingResolves(env: Env, s: State, tx: int, r: int, row: Row, sent: string)
    requires Addresses(env.prefixes) && MaySave(env, s, tx, r, row, sent)
    ensures Leads(env, s, Resolve(tx, r, Row(Products, "", None), Some(sent), true, Normalize(env.prefixes, row.value)),
                  MidSave(env, s, tx, r, row, sent, 1))
  {
    ValidKeyIsNormal(env.prefixes, sent, row.schema, FolderOf(row.source));
  }

  lemma SavingLocks(env: Env, s: State, tx: int, r: int, row: Row, sent: string)
    requires MaySave(env, s, tx, r, row, sent)
    ensures Leads(env, MidSave(env, s, tx, r, row, sent, 1), Lock(tx), MidSave(env, s, tx, r, row, sent, 2))
    ensures Leads(env, MidSave(env, s, tx, r, row, sent, 2), Verify(tx, true), MidSave(env, s, tx, r, row, sent, 3))
  {
    var s1, s2 := MidSave(env, s, tx, r, row, sent, 1), MidSave(env, s, tx, r, row, sent, 2);
    var s3 := MidSave(env, s, tx, r, row, sent, 3);
    assert Next(env, s1, Lock(tx)).txs == s2.txs;
    assert Next(env, s2, Verify(tx, true)).txs == s3.txs;
  }

  lemma SavingCommits(env: Env, s: State, tx: int, r: int, row: Row, sent: string)
    requires MaySave(env, s, tx, r, row, sent)
    ensures Leads(env, MidSave(env, s, tx, r, row, sent, 3), Commit(tx), MidSave(env, s, tx, r, row, sent, 4))
  {
    var before, after := MidSave(env, s, tx, r, row, sent, 3), MidSave(env, s, tx, r, row, sent, 4);
    assert before.txs - {tx} == after.txs;
    assert Release(before.locks, tx) == map[];
    assert before.rows + before.txs[tx].writes == after.rows;
  }

  lemma SavingRuns(env: Env, s: State, tx: int, r: int, row: Row, sent: string)
    requires Addresses(env.prefixes) && MaySave(env, s, tx, r, row, sent)
    ensures Exec(env, s, Saving(tx, r, sent, Normalize(env.prefixes, row.value)))
            == Some(s.(rows := s.rows[r := row.(value := Some(sent))], txs := s.txs - {tx}))
  {
    var states := seq(4, (i: nat) => MidSave(env, s, tx, r, row, sent, i + 1));
    var steps := Saving(tx, r, sent, Normalize(env.prefixes, row.value));
    forall i | 0 <= i < 4 ensures Leads(env, Before(s, states, i), steps[i], states[i]) {
      if i == 0 { SavingResolves(env, s, tx, r, row, sent); }
      else if i == 3 { SavingCommits(env, s, tx, r, row, sent); }
      else { SavingLocks(env, s, tx, r, row, sent); }
    }
    Chain(env, s, steps, states);
  }

  function Creating(tx: int, r: int, blank: Row, key: string, baseProvided: bool, base: Option<string>): seq<Step> {
    [BeginSave(tx), Resolve(tx, r, blank, Some(key), baseProvided, base), Lock(tx), Verify(tx, true), Commit(tx)]
  }

  /** A transaction may create a row with an uploaded image. */
  predicate MayCreate(env: Env, s: State, tx: int, r: int, blank: Row, key: string) {
    && tx !in s.txs && r !in s.rows && Free(env, s, key, tx) && PlainSchema(blank.schema) && blank.source != Receipts
    && key in s.objects && ValidKey(key, blank.schema, FolderOf(blank.source))
  }

  function MidCreate(env: Env, s: State, tx: int, r: int, blank: Row, key: string, i: nat): State {
    var target := blank.(value := Some(key));
    var locks := if i >= 3 then s.locks[env.hash(key) := tx] else s.locks;
    if i == 0 then s
    else if i >= 5 then s.(rows := s.rows[r := target], locks := Release(locks, tx))
    else s.(locks := locks,
            txs := s.txs[tx := if i == 1 then Saver(map[], map[], None)
                               else if i == 2 then Saver(map[], map[], Some(Want(r, target, false)))
                               else if i == 3 then Saver(map[], map[], Some(Want(r, target, true)))
                               else Saver(map[], map[r := target], None)])
  }

  lemma CreatingResolves(env: Env, s: State, tx: int, r: int, blank: Row, key: string, baseProvided: bool,
                         base: Option<string>)
    requires Addresses(env.prefixes) && MayCreate(env, s, tx, r, blank, key)
    ensures Leads(env, MidCreate(env, s, tx, r, blank, key, 0), BeginSave(tx), MidCreate(env, s, tx, r, blank, key, 1))
    ensures Leads(env, MidCreate(env, s, tx, r, blank, key, 1), Resolve(tx, r, blank, Some(key), baseProvided, base),
                  MidCreate(env, s, tx, r, blank, key, 2))
  {
    ValidKeyIsNormal(env.prefixes, key, blank.schema, FolderOf(blank.source));
    var s2 := MidCreate(env, s, tx, r, blank, key, 2);
    assert s.txs[tx := Saver(map[], map[], None)][tx := s2.txs[tx]] == s2.txs;
  }

  lemma CreatingLocks(env: Env, s: State, tx: int, r: int, blank: Row, key: string)
    requires MayCreate(env, s, tx, r, blank, key)
    ensures Leads(env, MidCreate(env, s, tx, r, blank, key, 2), Lock(tx), MidCreate(env, s, tx, r, blank, key, 3))
    ensures Leads(env, MidCreate(env, s, tx, r, blank, key, 3), Verify(tx, true),
                  MidCreate(env, s, tx, r, blank, key, 4))
  {
    var s2, s3 := MidCreate(env, s, tx, r, blank, key, 2), MidCreate(env, s, tx, r, blank, key, 3);
    var s4 := MidCreate(env, s, tx, r, blank, key, 4);
    assert Next(env, s2, Lock(tx)).txs == s3.txs;
    assert Next(env, s3, Verify(tx, true)).txs == s4.txs;
  }

  lemma CreatingCommits(env: Env, s: State, tx: int, r: int, blank: Row, key: string)
    requires MayCreate(env, s, tx, r, blank, key)
    ensures Leads(env, MidCreate(env, s, tx, r, blank, key, 4), Commit(tx), MidCreate(env, s, tx, r, blank, key, 5))
  {
    var before, after := MidCreate(env, s, tx, r, blank, key, 4), MidCreate(env, s, tx, r, blank, key, 5);
    assert before.txs - {tx} == after.txs;
    assert before.rows + before.txs[tx].writes == after.rows;
  }

  /** A creation with a valid key whose object is there, and whose lock is free, ends
      with the new row, whatever else is under way. */
  lemma CreationCommits(env: Env, s: State, tx: int, r: int, blank: Row, key: string, baseProvided: bool,
                        base: Option<string>)
    requires Addresses(env.prefixes) && MayCreate(env, s, tx, r, blank, key)
    ensures Exec(env, s, Creating(tx, r, blank, key, baseProvided, base))
            == Some(s.(rows := s.rows[r := blank.(value := Some(key))],
                       locks := Release(s.locks[env.hash(key) := tx], tx)))
  {
    var states := seq(5, (i: nat) => MidCreate(env, s, tx, r, blank, key, i + 1));
    var steps := Creating(tx, r, blank, key, baseProvided, base);
    forall i | 0 <= i < 5 ensures Leads(env, Before(s, states, i), steps[i], states[i]) {
      if i < 2 { CreatingResolves(env, s, tx, r, blank, key, baseProvided, base); }
      else if i < 4 { CreatingLocks(env, s, tx, r, blank, key); }
      else { CreatingCommits(env, s, tx, r, blank, key); }
    }
    Chain(env, s, steps, states);
  }

  function Plain(tx: int, r: int, blank: Row, raw: Option<string>): seq<Step> {
    [BeginSave(tx), Resolve(tx, r, blank, raw, false, None), Commit(tx)]
  }

  /** A creation without an image, or with one of another origin, needs no lock and
      ends with the new row. */
  lemma PlainCreationCommits(env: Env, s: State, tx: int, r: int, blank: Row, raw: Option<string>)
    requires tx !in s.txs && r !in s.rows && PlainSchema(blank.schema) && blank.source != Receipts
    requires var value := Normalize(env.prefixes, raw);
             value.Some? ==> !IsManaged(value.value) && Admitted(env, s.objects, blank.(value := None), value)
    ensures Exec(env, s, Plain(tx, r, blank, raw))
            == Some(s.(rows := s.rows[r := blank.(value := Normalize(env.prefixes, raw))],
                       locks := Release(s.locks, tx)))
  {
    var target := blank.(value := Normalize(env.prefixes, raw));
    var s1 := s.(txs := s.txs[tx := Saver(map[], map[], None)]);
    var s2 := s.(txs := s.txs[tx := Saver(map[], map[r := target], None)]);
    var s3 := s.(rows := s.rows[r := target], locks := Release(s.locks, tx));
    assert s1.txs[tx := s2.txs[tx]] == s2.txs;
    assert s2.txs - {tx} == s3.txs;
    assert s2.rows + s2.txs[tx].writes == s3.rows;
    assert Leads(env, s1, Resolve(tx, r, blank, raw, false, None), s2);
    Chain(env, s, Plain(tx, r, blank, raw), [s1, s2, s3]);
  }

  /** What ends a transaction without a trace: a changed image whose key is not one of
      that business and folder, an object that is missing or not answered for, a
      reference found before a deletion, or any other failure. */
  predicate GivesUp(env: Env, s: State, step: Step, tx: int)
    requires Enabled(env, s, step)
  {
    match step
    case Resolve(t, row, blank, raw, _, _) =>
      var sent, stored := Normalize(env.prefixes, raw), Stored(s, t, row, blank);
      && t == tx && sent.Some? && sent != Normalize(env.prefixes, stored.value)
      && IsManaged(sent.value) && !ValidKey(sent.value, stored.schema, FolderOf(stored.source))
    case Verify(t, answered) => t == tx && !(answered && s.txs[t].want.value.target.value.value in s.objects)
    case Abort(t) => t == tx
    case Scan(t) =>
      t == tx && s.txs[t].stage > 0
      && FindsAny(env, SCANS[s.txs[t].stage - 1], s.txs[t].schema, s.txs[t].key, s.rows)
    case _ => false
  }

  /** A transaction ends exactly so, or by committing or deleting; it keeps its locks
      until then and gives them all back, and one that gives up changes nothing. */
  lemma TransactionsEnd(env: Env, s: State, step: Step, tx: int)
    requires Enabled(env, s, step) && tx in s.txs
    ensures var s' := Next(env, s, step);
            && (tx !in s'.txs <==> GivesUp(env, s, step, tx) || step == Commit(tx) || (step.Delete? && step.tx == tx))
            && (tx !in s'.txs ==> s'.txs == s.txs - {tx} && s'.locks == Release(s.locks, tx))
            && (tx in s'.txs ==> forall h | h in s.locks && s.locks[h] == tx :: h in s'.locks && s'.locks[h] == tx)
            && (GivesUp(env, s, step, tx) ==> s'.rows == s.rows && s'.objects == s.objects)
  {
    if step.Resolve? { ResolvingEnds(env, s, step, tx); }
  }

  lemma ResolvingEnds(env: Env, s: State, step: Step, tx: int)
    requires Enabled(env, s, step) && step.Resolve? && tx in s.txs
    ensures var s' := Next(env, s, step);
            if GivesUp(env, s, step, tx) then s' == End(s, tx)
            else tx in s'.txs && forall h | h in s.locks && s.locks[h] == tx :: h in s'.locks && s'.locks[h] == tx
  {
  }

  /** Two forms opened on one image that both read the row before either commits are
      both applied, and the one that commits last wins: the comparison with the
      base is made against what the transaction has read. */
  lemma BothFormsApply(env: Env, s: State, r: int, a: string, b: string)
    requires Addresses(env.prefixes) && AtRest(s) && r in s.rows && s.rows[r].source != Receipts
    requires PlainSchema(s.rows[r].schema) && {a, b} <= s.objects
    requires forall sent | sent in {a, b} :: ValidKey(sent, s.rows[r].schema, FolderOf(s.rows[r].source))
               && Normalize(env.prefixes, s.rows[r].value) != Some(sent)
    ensures var base := Normalize(env.prefixes, s.rows[r].value);
            var first, second := (Reading(2, r) + Reading(1, r)) + Saving(1, r, a, base), Saving(2, r, b, base);
            && Exec(env, s, first).Some?
            && Exec(env, s, first).value.rows == s.rows[r := s.rows[r].(value := Some(a))]
            && Exec(env, s, first + second) == Some(s.(rows := s.rows[r := s.rows[r].(value := Some(b))]))
  {
    var row, base := s.rows[r], Normalize(env.prefixes, s.rows[r].value);
    var s1 := s.(rows := s.rows[r := row.(value := Some(a))], txs := map[2 := Saver(map[r := row], map[], None)]);
    FirstFormApplies(env, s, r, a);
    SavingRuns(env, s1, 2, r, row, b);
    assert s1.txs - {2} == map[] && s1.rows[r := row.(value := Some(b))] == s.rows[r := row.(value := Some(b))];
    ExecConcat(env, s, (Reading(2, r) + Reading(1, r)) + Saving(1, r, a, base), Saving(2, r, b, base));
  }

  /** What a payment method's form whose image is ignored leaves of the image. */
  function Left(env: Env, row: Row): Row {
    if Normalize(env.prefixes, row.value).None? then row.(value := None) else row
  }

  /** The form of a payment method whose image is ignored writes the image that it has
      read, with its other fields, and so undoes a change made in between. */
  lemma IgnoredFormRestores(env: Env, s: State, r: int, a: string, sent: string, baseProvided: bool,
                            base: Option<string>)
    requires Addresses(env.prefixes) && AtRest(s) && r in s.rows && s.rows[r].source == Payments
    requires PlainSchema(s.rows[r].schema) && a in s.objects
    requires forall key | key in {a, sent} :: ValidKey(key, s.rows[r].schema, FolderOf(Payments))
               && Normalize(env.prefixes, s.rows[r].value) != Some(key)
    requires !baseProvided || base != Normalize(env.prefixes, s.rows[r].value)
    ensures var current := Normalize(env.prefixes, s.rows[r].value);
            var first := (Reading(2, r) + Reading(1, r)) + Saving(1, r, a, current);
            && Exec(env, s, first).Some?
            && Exec(env, s, first).value.rows == s.rows[r := s.rows[r].(value := Some(a))]
            && Exec(env, s, first + Ignored(2, r, s.rows[r], sent, baseProvided, base))
               == Some(s.(rows := s.rows[r := Left(env, s.rows[r])]))
            && (current.Some? ==> s.rows[r := Left(env, s.rows[r])] == s.rows)
  {
    var row, current := s.rows[r], Normalize(env.prefixes, s.rows[r].value);
    var s1 := s.(rows := s.rows[r := row.(value := Some(a))], txs := map[2 := Saver(map[r := row], map[], None)]);
    FirstFormApplies(env, s, r, a);
    IgnoredRuns(env, s1, r, row, sent, baseProvided, base);
    assert s1.rows[r := Left(env, row)] == s.rows[r := Left(env, row)] && map[] == s.txs;
    ExecConcat(env, s, (Reading(2, r) + Reading(1, r)) + Saving(1, r, a, current),
               Ignored(2, r, row, sent, baseProvided, base));
  }

  function Ignored(tx: int, r: int, row: Row, sent: string, baseProvided: bool, base: Option<string>): seq<Step> {
    [Resolve(tx, r, row, Some(sent), baseProvided, base), Commit(tx)]
  }

  lemma IgnoredRuns(env: Env, s: State, r: int, row: Row, sent: string, baseProvided: bool, base: Option<string>)
    requires Addresses(env.prefixes) && r in s.rows && row.source == Payments && PlainSchema(row.schema)
    requires s.locks == map[] && s.txs == map[2 := Saver(map[r := row], map[], None)]
    requires ValidKey(sent, row.schema, FolderOf(Payments)) && Normalize(env.prefixes, row.value) != Some(sent)
    requires !baseProvided || base != Normalize(env.prefixes, row.value)
    ensures Exec(env, s, Ignored(2, r, row, sent, baseProvided, base))
            == Some(s.(rows := s.rows[r := Left(env, row)], txs := map[]))
  {
    var s1 := s.(txs := map[2 := Saver(map[r := row], map[r := Left(env, row)], None)]);
    var s2 := s.(rows := s.rows[r := Left(env, row)], txs := map[]);
    ValidKeyIsNormal(env.prefixes, sent, row.schema, FolderOf(Payments));
    assert s.txs[2 := s1.txs[2]] == s1.txs;
    assert s1.rows + s1.txs[2].writes == s2.rows;
    assert Release(s1.locks, 2) == s2.locks;
    assert s1.txs - {2} == s2.txs;
    var steps, states := Ignored(2, r, row, sent, baseProvided, base), [s1, s2];
    forall i | 0 <= i < 2 ensures Leads(env, Before(s, states, i), steps[i], states[i]) {}
    Chain(env, s, steps, states);
  }

  lemma FirstFormApplies(env: Env, s: State, r: int, a: string)
    requires Addresses(env.prefixes) && AtRest(s) && r in s.rows && s.rows[r].source != Receipts
    requires PlainSchema(s.rows[r].schema) && a in s.objects
    requires ValidKey(a, s.rows[r].schema, FolderOf(s.rows[r].source))
    requires Normalize(env.prefixes, s.rows[r].value) != Some(a)
    ensures var row := s.rows[r];
            Exec(env, s, (Reading(2, r) + Reading(1, r)) + Saving(1, r, a, Normalize(env.prefixes, row.value)))
            == Some(s.(rows := s.rows[r := row.(value := Some(a))], txs := map[2 := Saver(map[r := row], map[], None)]))
  {
    var row := s.rows[r];
    var seen := Saver(map[r := row], map[], None);
    var s1, s2 := s.(txs := map[2 := seen]), s.(txs := map[2 := seen, 1 := seen]);
    ReadingRuns(env, s, 2, r);
    assert s.txs[2 := seen] == s1.txs;
    ReadingRuns(env, s1, 1, r);
    assert s1.txs[1 := seen] == s2.txs;
    ExecConcat(env, s, Reading(2, r), Reading(1, r));
    SavingRuns(env, s2, 1, r, row, a);
    assert s2.txs - {1} == s1.txs;
    ExecConcat(env, s, Reading(2, r) + Reading(1, r), Saving(1, r, a, Normalize(env.prefixes, row.value)));
  }

  // ------------------------------------------------ where a row is not harmless

  /** A row at rest that a save may rewrite to `key` without locking it. */
  predicate Rewritable(env: Env, s: State, r: int, key: string) {
    && AtRest(s) && r in s.rows && PlainSchema(s.rows[r].schema)
    && Exposed(env, s.rows[r]) && Settled(env.prefixes, s.rows[r].value) == Some(key)
    && Normalize(env.prefixes, s.rows[r].value) == Some(key)
  }

  // Transaction 1 rewrites the row to its key without a lock, 2 replaces the image,
  // 3 deletes the replaced file, then 1 commits.

  function Rewriting(r: int, key: string): seq<Step> {
    Reading(1, r) + [Resolve(1, r, Row(Products, "", None), Some(key), false, None)]
  }

  function Rewritten(s: State, r: int, key: string): State
    requires r in s.rows
  {
    s.(txs := map[1 := Saver(map[r := s.rows[r]], map[r := s.rows[r].(value := Some(key))], None)])
  }

  lemma RewritableKey(env: Env, s: State, r: int, key: string)
    requires Addresses(env.prefixes) && Rewritable(env, s, r, key)
    ensures Normalize(env.prefixes, Some(key)) == Some(key)
    ensures s.rows[r].source != Receipts && (s.rows[r].source == Payments || s.rows[r].value != Some(key))
  {
    OwnedIsNormal(env, s.rows[r].(value := Some(key)));
  }

  lemma RewritingRuns(env: Env, s: State, r: int, key: string)
    requires Addresses(env.prefixes) && Rewritable(env, s, r, key)
    ensures Exec(env, s, Rewriting(r, key)) == Some(Rewritten(s, r, key))
  {
    var s2 := s.(txs := map[1 := Saver(map[r := s.rows[r]], map[], None)]);
    ReadingRuns(env, s, 1, r);
    assert s.txs[1 := s2.txs[1]] == s2.txs;
    RewritingResolves(env, s, s2, r, key);
    var resolve := Resolve(1, r, Row(Products, "", None), Some(key), false, None);
    assert Exec(env, s2, [resolve]) == Some(Rewritten(s, r, key));
    ExecConcat(env, s, Reading(1, r), [resolve]);
  }

  lemma RewritingResolves(env: Env, s: State, s2: State, r: int, key: string)
    requires Addresses(env.prefixes) && Rewritable(env, s, r, key)
    requires s2 == s.(txs := map[1 := Saver(map[r := s.rows[r]], map[], None)])
    ensures Leads(env, s2, Resolve(1, r, Row(Products, "", None), Some(key), false, None), Rewritten(s, r, key))
  {
    RewritableKey(env, s, r, key);
  }

  /** If the object is missing the rewritten row is committed without it. */
  lemma MissingObjectShows(env: Env, s: State, r: int, key: string)
    requires Addresses(env.prefixes) && Rewritable(env, s, r, key) && key !in s.objects
    ensures !AlwaysSafe(env, s)
  {
    RewritingRuns(env, s, r, key);
    var mid := Rewritten(s, r, key);
    var last := Next(env, mid, Commit(1));
    assert Exec(env, mid, [Commit(1)]) == Some(last);
    ExecConcat(env, s, Rewriting(r, key), [Commit(1)]);
    assert last.rows[r] == s.rows[r].(value := Some(key));
    assert Exec(env, s, Rewriting(r, key) + [Commit(1)]) == Some(last);
  }

  /** Alone in the database, beside another image that may replace it, with a key
      of a folder from which objects are deleted. */
  predicate Racing(env: Env, s: State, r: int, key: string, other: string, folder: string) {
    && Rewritable(env, s, r, key) && s.rows == map[r := s.rows[r]]
    && key != other && other in s.objects
    && folder in {PRODUCTS, LOGO} && ValidKey(key, s.rows[r].schema, folder)
    && ValidKey(other, s.rows[r].schema, FolderOf(s.rows[r].source))
  }

  function Replacing(r: int, key: string, other: string): seq<Step> {
    Reading(2, r) + Saving(2, r, other, Some(key))
  }

  function Replaced(s: State, r: int, key: string, other: string): State
    requires r in s.rows
  {
    Rewritten(s, r, key).(rows := map[r := s.rows[r].(value := Some(other))])
  }

  lemma ReplacingRuns(env: Env, s: State, r: int, key: string, other: string, folder: string)
    requires Addresses(env.prefixes) && Racing(env, s, r, key, other, folder)
    ensures Exec(env, Rewritten(s, r, key), Replacing(r, key, other)) == Some(Replaced(s, r, key, other))
  {
    var s0, row := Rewritten(s, r, key), s.rows[r];
    var s1 := s0.(txs := s0.txs[2 := Saver(map[r := row], map[], None)]);
    RewritableKey(env, s, r, key);
    ReadingRuns(env, s0, 2, r);
    SavingRuns(env, s1, 2, r, row, other);
    assert s1.txs - {2} == s0.txs;
    assert s0.rows[r := row.(value := Some(other))] == Replaced(s, r, key, other).rows;
    ExecConcat(env, s0, Reading(2, r), Saving(2, r, other, Some(key)));
  }

  /** After the replacement no read of the scan finds the key. */
  lemma NothingFound(env: Env, s: State, r: int, key: string, other: string, folder: string, source: Source)
    requires Addresses(env.prefixes) && Racing(env, s, r, key, other, folder)
    ensures !FindsAny(env, source, s.rows[r].schema, key, Replaced(s, r, key, other).rows)
  {
    var place := FolderOf(s.rows[r].source);
    ValidKeyShape(other, s.rows[r].schema, place);
    ValidKeyIsNormal(env.prefixes, other, s.rows[r].schema, place);
    CandidatesAreKeyOrAddress(env.prefixes, key, other);
  }

  lemma DeletingRuns(env: Env, s: State, r: int, key: string, other: string, folder: string) returns (steps: seq<Step>)
    requires Addresses(env.prefixes) && Racing(env, s, r, key, other, folder)
    ensures var before := Replaced(s, r, key, other);
            Exec(env, before, steps) == Some(before.(objects := s.objects - {key}))
  {
    var before, schema := Replaced(s, r, key, other), s.rows[r].schema;
    ValidKeyIsNormal(env.prefixes, key, schema, folder);
    forall i | 0 <= i < |SCANS| ensures !FindsAny(env, SCANS[i], schema, key, before.rows) {
      NothingFound(env, s, r, key, other, folder, SCANS[i]);
    }
    steps := DeletionIsARun(env, before, 3, Some(key), schema, folder, key);
    assert Release(before.locks[env.hash(key) := 3], 3) == before.locks;
  }

  lemma CandidatesAreKeyOrAddress(prefixes: seq<string>, key: string, other: string)
    requires Addresses(prefixes) && ':' !in other && other != key
    ensures other !in Candidates(prefixes, key)
  {
    forall i | 0 <= i < |prefixes| ensures prefixes[i] + key != other {
      assert prefixes[i] in prefixes;
      var j :| 0 <= j < |prefixes[i]| && prefixes[i][j] == ':';
      assert (prefixes[i] + key)[j] == ':';
    }
  }

  /** The race in a database of one row. */
  lemma RaceDangles(env: Env, s: State, r: int, key: string, other: string, folder: string) returns (steps: seq<Step>)
    requires Addresses(env.prefixes) && Racing(env, s, r, key, other, folder)
    ensures Exec(env, s, steps).Some? && !Safe(Exec(env, s, steps).value)
  {
    RewritingRuns(env, s, r, key);
    ReplacingRuns(env, s, r, key, other, folder);
    var deletion := DeletingRuns(env, s, r, key, other, folder);
    CommitDangles(env, s, r, key, other);
    ExecConcat(env, Replaced(s, r, key, other), deletion, [Commit(1)]);
    ExecConcat(env, Rewritten(s, r, key), Replacing(r, key, other), deletion + [Commit(1)]);
    ExecConcat(env, s, Rewriting(r, key), Replacing(r, key, other) + (deletion + [Commit(1)]));
    steps := Rewriting(r, key) + (Replacing(r, key, other) + (deletion + [Commit(1)]));
  }

  lemma CommitDangles(env: Env, s: State, r: int, key: string, other: string)
    requires Rewritable(env, s, r, key)
    ensures var mid := Replaced(s, r, key, other).(objects := s.objects - {key});
            Exec(env, mid, [Commit(1)]).Some? && !Safe(Exec(env, mid, [Commit(1)]).value)
  {
    var mid := Replaced(s, r, key, other).(objects := s.objects - {key});
    var last := Next(env, mid, Commit(1));
    assert Exec(env, mid, [Commit(1)]) == Some(last);
    assert last.rows[r] == s.rows[r].(value := Some(key));
  }

  /** There always is another name for an image. */
  lemma OtherKey(key: string, schema: string, folder: string, place: string) returns (other: string)
    requires KnownFolder(folder) && KnownFolder(place) && ValidKey(key, schema, folder)
    ensures other != key && ValidKey(other, schema, place)
  {
    other := Directory(schema, place) + (if key == Directory(schema, place) + "a" then "b" else "a");
    var dir := Directory(schema, place);
    assert other[|dir|..] in {"a", "b"};
    NoDots(key, schema, folder, other, place);
    if key == dir + "a" { assert other[|dir|] != key[|dir|]; }
  }

  lemma NoDots(key: string, schema: string, folder: string, other: string, place: string)
    requires KnownFolder(folder) && KnownFolder(place) && ValidKey(key, schema, folder)
    requires |other| == |Directory(schema, place)| + 1 && Directory(schema, place) <= other
    requires IsAlnum(other[|other| - 1])
    ensures !Contains(other, "..")
  {
    forall i | 0 <= i <= |other| ensures !At(other, "..", i) {
      if At(other, "..", i) {
        assert other[i] == other[i..i + 2][0] == '.' && other[i + 1] == other[i..i + 2][1] == '.';
        DotsBeforeFolder(schema, place, other, i);
        assert key[i..i + 2] == "..";
        assert At(key, "..", i);
      }
    }
  }

  lemma DotsBeforeFolder(schema: string, place: string, other: string, i: nat)
    requires KnownFolder(place)
    requires |other| == |Directory(schema, place)| + 1 && Directory(schema, place) <= other
    requires IsAlnum(other[|other| - 1])
    requires i + 1 < |other| && other[i] == '.' && other[i + 1] == '.'
    ensures i + 1 < |schema|
  {
    var dir := Directory(schema, place);
    assert forall k | 0 <= k < |place| :: place[k] != '.';
    assert forall k | 0 <= k < |dir| :: other[k] == dir[k];
    assert forall k | |schema| <= k < |dir| ::
        dir[k] == (if k == |schema| || k == |dir| - 1 then '/' else place[k - |schema| - 1]);
  }

  lemma UnsafeLater(env: Env, s: State, steps: seq<Step>, s': State)
    requires Exec(env, s, steps) == Some(s') && !AlwaysSafe(env, s')
    ensures !AlwaysSafe(env, s)
  {
    var more :| Exec(env, s', more).Some? && !Safe(Exec(env, s', more).value);
    ExecConcat(env, s, steps, more);
  }

  /** A row that may be rewritten to a key that may be deleted can be left naming a
      deleted object, whatever else the database holds. */
  lemma DeletableObjectShows(env: Env, s: State, r: int, key: string)
    requires Addresses(env.prefixes) && Rewritable(env, s, r, key) && Deletable(key)
    ensures !AlwaysSafe(env, s)
  {
    var schema, folder :| folder in {PRODUCTS, LOGO} && PlainSchema(schema) && ValidKey(key, schema, folder);
    OwnerOfDeletable(s.rows[r].(value := Some(key)), schema, folder);
    var other := OtherKey(key, schema, folder, FolderOf(s.rows[r].source));
    var s1 := s.(objects := s.objects + {other});
    assert Exec(env, s, [Upload(other)]) == Some(s1);
    var clear := ClearOthers(env, s1, r);
    var race := RaceDangles(env, s1.(rows := map[r := s.rows[r]]), r, key, other, folder);
    UnsafeLater(env, s1, clear, s1.(rows := map[r := s.rows[r]]));
    UnsafeLater(env, s, [Upload(other)], s1);
  }

  // A row in a form that is not normal yet, when normalised once: saving it as it
  // is displayed takes it one step further.

  function Resubmitted(r: int, raw: Option<string>): Step {
    Resolve(1, r, Row(Products, "", None), raw, false, None)
  }

  lemma KeepingWrites(env: Env, s: State, r: int, row: Row)
    requires s.txs == map[1 := Saver(map[r := row], map[], None)] && row.source != Receipts
    requires Normalize(env.prefixes, row.value).Some? && Normalize(env.prefixes, row.value) != row.value
    ensures var kept := row.(value := Normalize(env.prefixes, row.value));
            Leads(env, s, Resubmitted(r, row.value), s.(txs := map[1 := Saver(map[r := row], map[r := kept], None)]))
  {
  }

  lemma WriteCommits(env: Env, s: State, r: int, row: Row, target: Row)
    requires s.locks == map[] && s.txs == map[1 := Saver(map[r := row], map[r := target], None)]
    ensures Leads(env, s, Commit(1), s.(rows := s.rows[r := target], txs := map[]))
  {
    assert Release(s.locks, 1) == map[] && s.txs - {1} == map[];
    assert s.rows + s.txs[1].writes == s.rows[r := target];
  }

  /** A form whose one image is resolved to a write, and its commit. */
  lemma WritingRuns(env: Env, s: State, r: int, resolve: Step, target: Row)
    requires AtRest(s) && r in s.rows
    requires Leads(env, s.(txs := map[1 := Saver(map[r := s.rows[r]], map[], None)]), resolve,
                   s.(txs := map[1 := Saver(map[r := s.rows[r]], map[r := target], None)]))
    ensures Exec(env, s, Reading(1, r) + [resolve, Commit(1)]) == Some(s.(rows := s.rows[r := target]))
  {
    var s2 := s.(txs := map[1 := Saver(map[r := s.rows[r]], map[], None)]);
    var s3 := s.(txs := map[1 := Saver(map[r := s.rows[r]], map[r := target], None)]);
    var s4 := s.(rows := s.rows[r := target]);
    ReadingRuns(env, s, 1, r);
    assert s.txs[1 := s2.txs[1]] == s2.txs;
    WriteCommits(env, s3, r, s.rows[r], target);
    assert Leads(env, Before(s2, [s3, s4], 0), resolve, s3) && Leads(env, Before(s2, [s3, s4], 1), Commit(1), s4);
    Chain(env, s2, [resolve, Commit(1)], [s3, s4]);
    ExecConcat(env, s, Reading(1, r), [resolve, Commit(1)]);
  }

  lemma {:induction false} ExposedIsUnsafe(env: Env, s: State, r: int)
    requires Addresses(env.prefixes) && AtRest(s) && r in s.rows && PlainSchema(s.rows[r].schema)
    requires !Harmless(env, s.objects, s.rows[r])
    ensures !AlwaysSafe(env, s)
    decreases if r in s.rows && s.rows[r].value.Some? then |s.rows[r].value.value| + 1 else 0
  {
    var row, normal := s.rows[r], Normalize(env.prefixes, s.rows[r].value);
    var key := Settled(env.prefixes, row.value).value;
    if normal != Some(key) {
      NormalShortens(env.prefixes, row.value);
      SettledOnce(env.prefixes, row.value);
      var s1 := s.(rows := s.rows[r := row.(value := normal)]);
      KeepingWrites(env, s.(txs := map[1 := Saver(map[r := row], map[], None)]), r, row);
      WritingRuns(env, s, r, Resubmitted(r, row.value), row.(value := normal));
      ExposedIsUnsafe(env, s1, r);
      UnsafeLater(env, s, Reading(1, r) + [Resubmitted(r, row.value), Commit(1)], s1);
    } else if key !in s.objects {
      MissingObjectShows(env, s, r, key);
    } else {
      DeletableObjectShows(env, s, r, key);
    }
  }

  /** From a database at rest in which no reference dangles, no run ever makes one
      dangle, exactly when every row that a save may rewrite without a lock stands
      for an object that exists and is never deleted. That is, if every new address
      that clients send is admitted. */
  lemma SafeIff(env: Env, start: State)
    requires Addresses(env.prefixes) && !env.nested && AtRest(start) && Safe(start)
    requires forall r | r in start.rows :: PlainSchema(start.rows[r].schema)
    ensures AlwaysSafe(env, start) <==> forall r | r in start.rows :: Harmless(env, start.objects, start.rows[r])
  {
    if forall r | r in start.rows :: Harmless(env, start.objects, start.rows[r]) {
      NoDanglingReference(env, start);
    } else {
      var r :| r in start.rows && !Harmless(env, start.objects, start.rows[r]);
      ExposedIsUnsafe(env, start, r);
    }
  }

  // --------------------------------------------- addresses to normalise twice

  /** A key behind the first prefix twice: what is left after normalising still looks
      like an address, of another origin. */
  lemma TwiceBehindPrefix(prefixes: seq<string>, key: string, schema: string, folder: string)
    requires prefixes != [] && Configured(prefixes) && !IsManaged(prefixes[0])
    requires PlainSchema(schema) && KnownFolder(folder) && ValidKey(key, schema, folder)
    ensures var url := prefixes[0] + key;
            && Normalize(prefixes, Some(prefixes[0] + url)) == Some(url) && !IsManaged(url)
            && Normalize(prefixes, Some(url)) == Some(key) && url != key
  {
    var p := prefixes[0];
    assert p in prefixes;
    ValidKeyShape(key, schema, folder);
    StripPlain(p + key);
    StripPlain(p + (p + key));
    assert (p + key)[..|p|] == p && (p + key)[|p|..] == key;
    assert (p + (p + key))[..|p|] == p && (p + (p + key))[|p|..] == p + key;
    StaysAddress(p, key);
  }

  lemma StaysAddress(p: string, rest: string)
    requires !IsManaged(p)
    ensures !IsManaged(p + rest)
  {
    var i :| 0 <= i <= |p| && At(p, "://", i);
    assert (p + rest)[i..i + 3] == p[i..i + 3];
    assert At(p + rest, "://", i);
  }

  /** An address that, normalised, still passes as one of another origin is applied
      without lock or check. */
  lemma ForeignIsApplied(env: Env, s: State, r: int, row: Row, raw: string, url: string)
    requires env.nested && s.txs == map[1 := Saver(map[r := row], map[], None)] && row.source in {Products, Logos}
    requires Normalize(env.prefixes, Some(raw)) == Some(url) && !IsManaged(url)
    requires Normalize(env.prefixes, row.value) != Some(url)
    ensures Leads(env, s, Resolve(1, r, Row(Products, "", None), Some(raw), true, Normalize(env.prefixes, row.value)),
                  s.(txs := map[1 := Saver(map[r := row], map[r := row.(value := Some(url))], None)]))
  {
  }

  function Submission(env: Env, r: int, row: Row, raw: string): seq<Step> {
    var resolve := Resolve(1, r, Row(Products, "", None), Some(raw), true, Normalize(env.prefixes, row.value));
    Reading(1, r) + [resolve, Commit(1)]
  }

  lemma SubmissionRuns(env: Env, s: State, r: int, raw: string, url: string)
    requires env.nested && AtRest(s) && r in s.rows && s.rows[r].source in {Products, Logos}
    requires Normalize(env.prefixes, Some(raw)) == Some(url) && !IsManaged(url)
    requires Normalize(env.prefixes, s.rows[r].value) != Some(url)
    ensures Exec(env, s, Submission(env, r, s.rows[r], raw))
            == Some(s.(rows := s.rows[r := s.rows[r].(value := Some(url))]))
  {
    var row := s.rows[r];
    ForeignIsApplied(env, s.(txs := map[1 := Saver(map[r := row], map[], None)]), r, row, raw, url);
    WritingRuns(env, s, r, Resolve(1, r, Row(Products, "", None), Some(raw), true, Normalize(env.prefixes, row.value)),
                row.(value := Some(url)));
  }

  /** One new address, sent to a product or logo of a clean database and applied as
      one of another origin, can later leave a dangling reference exactly when it
      settles on a key of the row's business whose object is missing or may be
      deleted. */
  lemma AddressIff(env: Env, s: State, r: int, raw: string, url: string)
    requires Addresses(env.prefixes) && !env.nested && AtRest(s) && Safe(s)
    requires forall q | q in s.rows :: Tidy(env, s.objects, s.rows[q])
    requires r in s.rows && s.rows[r].source in {Products, Logos}
    requires Normalize(env.prefixes, Some(raw)) == Some(url) && !IsManaged(url)
    requires Normalize(env.prefixes, s.rows[r].value) != Some(url)
    ensures var after := s.(rows := s.rows[r := s.rows[r].(value := Some(url))]);
            var key := Settled(env.prefixes, Some(url));
            && Exec(env.(nested := true), s, Submission(env, r, s.rows[r], raw)) == Some(after)
            && (AlwaysSafe(env, after)
                <==> (Owns(s.rows[r].(value := key)) ==> key.value in s.objects && !Deletable(key.value)))
  {
    var after := s.(rows := s.rows[r := s.rows[r].(value := Some(url))]);
    SubmissionRuns(env.(nested := true), s, r, raw, url);
    ForeignIsHarmless(after.rows[r]);
    assert AtRest(after) && Safe(after);
    SafeIff(env, after);
    forall q | q in s.rows && q != r ensures Harmless(env, after.objects, after.rows[q]) {
      assert Tidy(env, s.objects, s.rows[q]);
    }
  }

  lemma DoubledIsExposed(env: Env, objects: set<string>, row: Row, key: string)
    requires Addresses(env.prefixes) && PlainSchema(row.schema) && row.source in {Products, Logos}
    requires env.prefixes != []
    requires Settled(env.prefixes, row.value) == Settled(env.prefixes, Some(env.prefixes[0] + key))
    requires Normalize(env.prefixes, Some(env.prefixes[0] + key)) == Some(key)
    requires ValidKey(key, row.schema, FolderOf(row.source)) && key !in objects && row.value != Some(key)
    ensures !Harmless(env, objects, row)
  {
    ValidKeyIsNormal(env.prefixes, key, row.schema, FolderOf(row.source));
    assert Settled(env.prefixes, Some(key)) == Some(key);
    assert Owns(row.(value := Some(key)));
  }

  /** Such an address always exists: the bucket's prefix twice in front of a key. So,
      if a client may send it, any product row or logo can be made to name any missing
      object of its business. */
  lemma DoubledPrefixDangles(env: Env, s: State, r: int, key: string)
    requires env.nested && env.prefixes != [] && Configured(env.prefixes) && !IsManaged(env.prefixes[0])
    requires AtRest(s) && r in s.rows && s.rows[r].source in {Products, Logos} && PlainSchema(s.rows[r].schema)
    requires ValidKey(key, s.rows[r].schema, FolderOf(s.rows[r].source)) && key !in s.objects
    ensures !AlwaysSafe(env, s)
  {
    var row, url := s.rows[r], env.prefixes[0] + key;
    TwiceBehindPrefix(env.prefixes, key, row.schema, FolderOf(row.source));
    ValidKeyIsNormal(env.prefixes, key, row.schema, FolderOf(row.source));
    if Normalize(env.prefixes, row.value) == Some(url) {
      SettledOnce(env.prefixes, row.value);
      DoubledIsExposed(env, s.objects, row, key);
      ExposedIsUnsafe(env, s, r);
    } else {
      var s1 := s.(rows := s.rows[r := row.(value := Some(url))]);
      SubmissionRuns(env, s, r, env.prefixes[0] + url, url);
      DoubledIsExposed(env, s1.objects, s1.rows[r], key);
      ExposedIsUnsafe(env, s1, r);
      UnsafeLater(env, s, Submission(env, r, row, env.prefixes[0] + url), s1);
    }
  }

  // ------------------------------------------------------ the scan as a loop

  /** `is_key_referenced`: three queries and one walk over the payment methods'
      values, which the database lists in some order. */
  method IsKeyReferenced(env: Env, schema: string, key: string, rows: map<int, Row>, payments: seq<int>)
    returns (found: bool)
    requires forall i | 0 <= i < |payments| :: payments[i] in rows
    requires forall r | r in rows && rows[r].source == Payments :: r in payments
    ensures found <==> exists i | 0 <= i < |SCANS| :: FindsAny(env, SCANS[i], schema, key, rows)
  {
    assert SCANS[0] == Products && SCANS[1] == Payments && SCANS[2] == Receipts && SCANS[3] == Logos;
    if FindsAny(env, Products, schema, key, rows) { return true; }
    for n := 0 to |payments|
      invariant forall m | 0 <= m < n :: !Finds(env, Payments, schema, key, rows[payments[m]])
    {
      var r := payments[n];
      if Finds(env, Payments, schema, key, rows[r]) {
        assert r in rows && Finds(env, SCANS[1], schema, key, rows[r]);
        assert FindsAny(env, SCANS[1], schema, key, rows);
        return true;
      }
    }
    found := FindsAny(env, Receipts, schema, key, rows) || FindsAny(env, Logos, schema, key, rows);
  }

  // --------------------------------------------------- one undisturbed call

  /** What a database session and the object store hold between two statements. */
  class Assets {
    const env: Env
    const rows: map<int, Row>
    var objects: set<string>
    var locks: map<int, int>

    constructor (env: Env, rows: map<int, Row>, objects: set<string>)
      ensures this.env == env && this.rows == rows && this.objects == objects && locks == map[]
    {
      this.env, this.rows, this.objects, this.locks := env, rows, objects, map[];
    }

    /** The key's lock is free, or already this transaction's: a call does not wait. */
    predicate Obtainable(key: string, tx: int)
      reads this
    {
      env.hash(key) in locks ==> locks[env.hash(key)] == tx
    }

    /** `asset_key_lock` */
    method LockKey(key: string, tx: int)
      requires Obtainable(key, tx)
      modifies this`locks
      ensures locks == old(locks)[env.hash(key) := tx]
    {
      locks := locks[env.hash(key) := tx];
    }

    /** ROLLBACK frees every lock of the transaction. */
    method Rollback(tx: int)
      modifies this`locks
      ensures locks == Release(old(locks), tx)
    {
      locks := map h | h in locks && locks[h] != tx :: locks[h];
    }

    /** `resolve_image_change`: keeps the lock exactly for an image that is applied
        and was seen; an image that is not there leaves no lock behind. */
    method ResolveImageChange(tx: int, schema: string, folder: string, sent: Option<string>, baseProvided: bool,
                              base: Option<string>, current: Option<string>, isCreation: bool, answered: bool)
      returns (decision: Option<Decision>)
      requires sent.Some? ==> Obtainable(sent.value, tx)
      modifies this`locks
      ensures var d := Decide(schema, folder, sent, baseProvided, base, current, isCreation);
              var checks := d == Apply && IsManaged(sent.value);
              && decision == (if d == BadKey || (checks && !(answered && sent.value in objects)) then None else Some(d))
              && (checks && decision.Some? ==> locks == old(locks)[env.hash(sent.value) := tx] && sent.value in objects)
              && (checks && decision.None? ==> locks == Release(old(locks)[env.hash(sent.value) := tx], tx))
              && (!checks ==> locks == old(locks))
      ensures sent.None? || sent == current ==> decision == Some(Keep) && locks == old(locks)
      ensures sent.Some? && sent != current ==>
                var foreign := !IsManaged(sent.value);
                var fine := foreign || ValidKey(sent.value, schema, folder);
                var meant := isCreation || (baseProvided && base == current);
                var there := foreign || (answered && sent.value in objects);
                && (decision == Some(Apply) <==> fine && meant && there)
                && (decision == Some(Ignore) <==> fine && !meant)
                && (decision.None? <==> !fine || (meant && !there))
                && locks == (if foreign || !fine || !meant then old(locks)
                             else if there then old(locks)[env.hash(sent.value) := tx]
                             else Release(old(locks)[env.hash(sent.value) := tx], tx))
    {
      var d := Decide(schema, folder, sent, baseProvided, base, current, isCreation);
      if d == BadKey { return None; }
      if d == Apply && sent.Some? && IsManaged(sent.value) {
        LockKey(sent.value, tx);
        if !answered || sent.value !in objects {
          Rollback(tx);
          return None;
        }
      }
      decision := Some(d);
    }

    /** `delete_if_unreferenced`: true exactly when no source mentions the key, also
        if the store then failed to delete, which is only logged; an object that is
        mentioned stays, and the lock is always given back. */
    method DeleteIfUnreferenced(tx: int, schema: string, key: string, payments: seq<int>, happens: bool)
      returns (deleted: bool)
      requires Obtainable(key, tx)
      requires forall i | 0 <= i < |payments| :: payments[i] in rows
      requires forall r | r in rows && rows[r].source == Payments :: r in payments
      modifies this
      ensures deleted <==> Unmentioned(env, schema, key, rows)
      ensures objects == if deleted && happens then old(objects) - {key} else old(objects)
      ensures locks == Release(old(locks)[env.hash(key) := tx], tx)
    {
      LockKey(key, tx);
      var referenced := IsKeyReferenced(env, schema, key, rows, payments);
      deleted := !referenced;
      if deleted && happens { objects := objects - {key}; }
      Rollback(tx);
    }
  }

  /** The state after i steps of a deletion that finds nothing. */
  function Deleted(env: Env, s: State, tx: int, schema: string, key: string, i: nat): State {
    if i == 0 then s
    else if i < 7 then
      s.(locks := if i > 1 then s.locks[env.hash(key) := tx] else s.locks,
         txs := s.txs[tx := Deleter(schema, key, i - 1)])
    else s.(objects := s.objects - {key}, locks := Release(s.locks[env.hash(key) := tx], tx))
  }

  function DeletionStep(tx: int, value: Option<string>, schema: string, folder: string, i: nat): Step {
    if i == 0 then BeginDelete(tx, value, schema, folder) else if i < 6 then Scan(tx) else Delete(tx, true)
  }

  predicate Unmentioned(env: Env, schema: string, key: string, rows: map<int, Row>) {
    forall i | 0 <= i < |SCANS| :: !FindsAny(env, SCANS[i], schema, key, rows)
  }

  lemma DeletionStepRuns(env: Env, s: State, tx: int, value: Option<string>, schema: string, folder: string,
                         key: string, i: nat)
    requires Enabled(env, s, BeginDelete(tx, value, schema, folder)) && i < 7
    requires key == DeletableKey(env.prefixes, value, schema, folder).value
    requires Free(env, s, key, tx) && Unmentioned(env, schema, key, s.rows)
    ensures Leads(env, Deleted(env, s, tx, schema, key, i), DeletionStep(tx, value, schema, folder, i),
                  Deleted(env, s, tx, schema, key, i + 1))
  {
    if i == 6 {
      assert Deleted(env, s, tx, schema, key, 6).txs - {tx} == s.txs;
    } else if i >= 1 {
      if i >= 2 { assert !FindsAny(env, SCANS[i - 2], schema, key, s.rows); }
      assert s.txs[tx := Deleter(schema, key, i - 1)][tx := Deleter(schema, key, i)]
          == s.txs[tx := Deleter(schema, key, i)];
      assert s.locks[env.hash(key) := tx][env.hash(key) := tx] == s.locks[env.hash(key) := tx];
    }
  }

  /** Such a deletion is a run of the interleaved model: begin, five scans, delete.
      It leaves every row as it is. */
  lemma DeletionIsARun(env: Env, s: State, tx: int, value: Option<string>, schema: string, folder: string, key: string)
    returns (steps: seq<Step>)
    requires Enabled(env, s, BeginDelete(tx, value, schema, folder))
    requires key == DeletableKey(env.prefixes, value, schema, folder).value
    requires Free(env, s, key, tx) && Unmentioned(env, schema, key, s.rows)
    ensures Exec(env, s, steps)
            == Some(s.(objects := s.objects - {key}, locks := Release(s.locks[env.hash(key) := tx], tx)))
    ensures forall r | r in s.rows :: Stays(env, s, steps, r, s.rows[r])
  {
    var states := seq(7, (i: nat) => Deleted(env, s, tx, schema, key, i + 1));
    steps := seq(7, (i: nat) => DeletionStep(tx, value, schema, folder, i));
    forall i | 0 <= i < 7 ensures Leads(env, Before(s, states, i), steps[i], states[i]) {
      DeletionStepRuns(env, s, tx, value, schema, folder, key, i);
    }
    Chain(env, s, steps, states);
    forall r | r in s.rows ensures Stays(env, s, steps, r, s.rows[r]) {
      ChainStays(env, s, steps, states, r);
    }
  }

  // ------------------------------------------- spellings the scan does not see

  /** Which of the reads looks at a source. */
  function Turn(source: Source): nat {
    match source case Products => 1 case Payments => 2 case Receipts => 3 case Logos => 4
  }

  /** The object is there, and no deletion of it is past the read that would find
      the row. */
  ghost predicate Held(s: State, row: Row, key: string) {
    && key in s.objects
    && forall tx | IsDeleter(s, tx) && s.txs[tx].key == key ::
         s.txs[tx].schema == row.schema && s.txs[tx].stage <= Turn(row.source)
  }

  lemma BeginKeepsHeld(env: Env, s: State, step: Step, row: Row, key: string, folder: string)
    requires Held(s, row, key) && step.BeginDelete? && Enabled(env, s, step)
    requires folder in {PRODUCTS, LOGO} && ValidKey(key, row.schema, folder)
    ensures Held(Next(env, s, step), row, key)
  {
    var other := DeletableKey(env.prefixes, step.value, step.schema, step.folder).value;
    if other == key { KeyNamesOnePlace(key, step.schema, step.folder, row.schema, folder); }
  }

  lemma ScanKeepsHeld(env: Env, s: State, tx: int, r: int, key: string)
    requires r in s.rows && Held(s, s.rows[r], key) && Enabled(env, s, Scan(tx))
    requires Finds(env, s.rows[r].source, s.rows[r].schema, key, s.rows[r])
    ensures Held(Next(env, s, Scan(tx)), s.rows[r], key)
  {
    assert SCANS[Turn(s.rows[r].source) - 1] == s.rows[r].source;
  }

  /** Other steps start and advance no deletion. */
  lemma DeletersStay(env: Env, s: State, step: Step, tx: int)
    requires Enabled(env, s, step) && !step.BeginDelete? && !step.Scan? && IsDeleter(Next(env, s, step), tx)
    ensures IsDeleter(s, tx) && Next(env, s, step).txs[tx] == s.txs[tx]
  {
  }

  lemma ObjectStays(env: Env, s: State, step: Step, row: Row, key: string)
    requires Held(s, row, key) && Enabled(env, s, step)
    ensures key in Next(env, s, step).objects
  {
  }

  lemma StepKeepsHeld(env: Env, s: State, step: Step, r: int, key: string, folder: string)
    requires r in s.rows && Held(s, s.rows[r], key) && Enabled(env, s, step)
    requires folder in {PRODUCTS, LOGO} && ValidKey(key, s.rows[r].schema, folder)
    requires Finds(env, s.rows[r].source, s.rows[r].schema, key, s.rows[r])
    ensures Held(Next(env, s, step), s.rows[r], key)
  {
    if step.BeginDelete? {
      BeginKeepsHeld(env, s, step, s.rows[r], key, folder);
    } else if step.Scan? {
      ScanKeepsHeld(env, s, step.tx, r, key);
    } else {
      ObjectStays(env, s, step, s.rows[r], key);
      var s' := Next(env, s, step);
      forall tx | IsDeleter(s', tx) ensures IsDeleter(s, tx) && s'.txs[tx] == s.txs[tx] {
        DeletersStay(env, s, step, tx);
      }
    }
  }

  lemma {:induction false} StayKeepsHeld(env: Env, s: State, steps: seq<Step>, r: int, row: Row, key: string,
                                         folder: string)
    requires Stays(env, s, steps, r, row) && Held(s, row, key)
    requires folder in {PRODUCTS, LOGO} && ValidKey(key, row.schema, folder)
    requires Finds(env, row.source, row.schema, key, row)
    ensures Exec(env, s, steps).Some? && key in Exec(env, s, steps).value.objects
    decreases |steps|
  {
    if steps != [] {
      StepKeepsHeld(env, s, steps[0], r, key, folder);
      StayKeepsHeld(env, Next(env, s, steps[0]), steps[1..], r, row, key, folder);
    }
  }

  ghost predicate CanLose(env: Env, s: State, r: int, key: string) {
    r in s.rows && exists steps :: Loses(env, s, steps, r, key)
  }

  /** A run that leaves the row as it is throughout and deletes its image. */
  ghost predicate Loses(env: Env, s: State, steps: seq<Step>, r: int, key: string) {
    && r in s.rows && Stays(env, s, steps, r, s.rows[r])
    && Exec(env, s, steps).Some? && key !in Exec(env, s, steps).value.objects
  }

  /** A product, receipt or logo row at rest that stands for a key of its business
      can lose the object while it stays, exactly when its spelling is not one of
      those the scan looks for (`SeenIff` says which these are). */
  lemma ImageIsLostIff(env: Env, s: State, r: int, key: string, folder: string)
    requires Addresses(env.prefixes) && AtRest(s) && r in s.rows && s.rows[r].source != Payments
    requires PlainSchema(s.rows[r].schema) && folder in {PRODUCTS, LOGO} && ValidKey(key, s.rows[r].schema, folder)
    requires Normalize(env.prefixes, s.rows[r].value) == Some(key) && key in s.objects
    ensures CanLose(env, s, r, key) <==> s.rows[r].value.value !in Candidates(env.prefixes, key)
  {
    var row := s.rows[r];
    if row.value.value in Candidates(env.prefixes, key) {
      forall steps | Loses(env, s, steps, r, key) ensures false {
        StayKeepsHeld(env, s, steps, r, row, key, folder);
      }
    } else {
      var steps := UnseenIsLost(env, s, r, key, folder);
    }
  }

  lemma UnseenIsLost(env: Env, s: State, r: int, key: string, folder: string) returns (steps: seq<Step>)
    requires Addresses(env.prefixes) && AtRest(s) && r in s.rows && s.rows[r].source != Payments
    requires PlainSchema(s.rows[r].schema) && folder in {PRODUCTS, LOGO} && ValidKey(key, s.rows[r].schema, folder)
    requires s.rows[r].value.Some? && s.rows[r].value.value !in Candidates(env.prefixes, key)
    ensures Loses(env, s, steps, r, key)
  {
    var row := s.rows[r];
    var alone := s.(rows := map[r := row]);
    var clear := ClearOthers(env, s, r);
    ValidKeyIsNormal(env.prefixes, key, row.schema, folder);
    forall i | 0 <= i < |SCANS| ensures !FindsAny(env, SCANS[i], row.schema, key, alone.rows) {}
    var deletion := DeletionIsARun(env, alone, 3, Some(key), row.schema, folder, key);
    assert Stays(env, alone, deletion, r, alone.rows[r]);
    ExecConcat(env, s, clear, deletion);
    StaysConcat(env, s, clear, alone, deletion, r, row);
    steps := clear + deletion;
  }
}
