/** Sends that run side by side: a send first selects unreserved outputs and only later,
    in its own transaction, reserves them. Blocks and rollbacks may come in between. */
module Reservations {
  import opened Options
  import opened BlockTree
  import opened Ledger
  import opened Spend
  import Fees
  import Payments

  datatype Step =
    | Select(send: int, account: AccountId, inputs: set<Outpoint>)
    | Reserve(send: int)
    | Abandon(send: int)   // any failure between selecting and the commit of the reservation
    | Batch(owners: AddressTable, changes: seq<Change>, env: Env, height: int)
    | Rollback(height: int)
    | Insert(o: Outpoint, value: int, address: Address, owner: AddressRow)

  /** sends: every send so far; pending: what sends have selected and not yet reserved; made: every reservation so far. */
  datatype State = State(utxo: UtxoTable, sends: set<int>, pending: map<int, set<Outpoint>>, made: set<(int, Outpoint)>)

  function Fresh(u: UtxoTable): State {
    State(u, {}, map[], {})
  }

  function ReserveSet(u: UtxoTable, s: set<Outpoint>, payment: int): UtxoTable {
    map o | o in u :: if o in s then u[o].(payment := Some(payment)) else u[o]
  }

  predicate Legal(s: State, st: Step) {
    match st
    case Select(p, account, inputs) => p !in s.sends && inputs <= Eligible(s.utxo, account)
    case Reserve(p) => p in s.pending
    case Abandon(p) => p in s.pending
    case Batch(_, _, _, _) => true
    case Rollback(_) => true
    case Insert(o, _, _, _) => o !in s.utxo
  }

  function Do(s: State, st: Step): State
    requires Legal(s, st)
  {
    match st
    case Select(p, account, inputs) => s.(sends := s.sends + {p}, pending := s.pending[p := inputs])
    case Reserve(p) =>
      s.(utxo := ReserveSet(s.utxo, s.pending[p], p), pending := s.pending - {p}, made := s.made + set o | o in s.pending[p] :: (p, o))
    case Abandon(p) => s.(pending := s.pending - {p})
    case Batch(owners, changes, env, height) => s.(utxo := Confirm(Apply(s.utxo, owners, changes), env, height))
    case Rollback(height) => s.(utxo := Revert(s.utxo, height))
    case Insert(o, value, address, owner) => s.(utxo := Upsert(s.utxo, o, value, address, owner, 0))
  }

  predicate LegalRun(s: State, run: seq<Step>)
    decreases |run|
  {
    run == [] || (Legal(s, run[0]) && LegalRun(Do(s, run[0]), run[1..]))
  }

  function After(s: State, run: seq<Step>): State
    requires LegalRun(s, run)
    decreases |run|
  {
    if run == [] then s else After(Do(s, run[0]), run[1..])
  }

  predicate Pending(s: State, p: int, o: Outpoint) {
    p in s.pending && o in s.pending[p]
  }

  // A send that has o selected and will reserve it in what is left of the run.
  predicate WillReserve(s: State, run: seq<Step>, p: int, o: Outpoint) {
    Pending(s, p, o) && Reserve(p) in run
  }

  ghost predicate SharedNow(s: State, run: seq<Step>, o: Outpoint) {
    exists p, q :: p != q && WillReserve(s, run, p, o) && WillReserve(s, run, q, o)
  }

  /** At some point of the run two sends have o selected, and both go on to reserve. */
  ghost predicate Overlap(s: State, run: seq<Step>, o: Outpoint)
    requires LegalRun(s, run)
    decreases |run|
  {
    SharedNow(s, run, o) || (run != [] && Overlap(Do(s, run[0]), run[1..], o))
  }

  ghost predicate ReservedTwice(s: State, o: Outpoint) {
    exists p, q :: p != q && (p, o) in s.made && (q, o) in s.made
  }

  // -------------------------------------------------- reservations outlive everything

  ghost predicate SamePayments(u: UtxoTable, u': UtxoTable) {
    forall o | o in u :: o in u' && u'[o].payment == u[o].payment
  }

  lemma {:induction false} BatchKeepsPayments(u: UtxoTable, owners: AddressTable, chs: seq<Change>)
    ensures SamePayments(u, Apply(u, owners, chs))
  {
    if chs != [] {
      BatchKeepsPayments(u, owners, chs[..|chs| - 1]);
    }
  }

  // ---------------------------------------------------------- one output at a time

  /** What holds of output o as long as no two sends that both reserve have it selected at once. */
  ghost predicate Single(s: State, run: seq<Step>, o: Outpoint) {
    && (forall p, q | WillReserve(s, run, p, o) && WillReserve(s, run, q, o) :: p == q)
    && (forall p | WillReserve(s, run, p, o) :: o in s.utxo && s.utxo[o].payment == None)
    && MadeNoted(s, o)
  }

  // A reservation is what the table says it is.
  ghost predicate MadeNoted(s: State, o: Outpoint) {
    forall p | (p, o) in s.made :: o in s.utxo && s.utxo[o].payment == Some(p)
  }

  // What the rest of a run will do, a run that starts one step earlier will do.
  lemma WillEarlier(run: seq<Step>, p: int)
    requires run != []
    ensures Reserve(p) in run <==> run[0] == Reserve(p) || Reserve(p) in run[1..]
  {
    assert run == [run[0]] + run[1..];
  }

  // Whatever keeps the reservations of the table and touches no send keeps the invariant.
  lemma TableStepSingle(s: State, u': UtxoTable, run: seq<Step>, o: Outpoint)
    requires run != [] && Single(s, run, o) && SamePayments(s.utxo, u') && !SharedNow(s.(utxo := u'), run[1..], o)
    ensures Single(s.(utxo := u'), run[1..], o)
  {
    forall p ensures WillReserve(s.(utxo := u'), run[1..], p, o) ==> WillReserve(s, run, p, o) {
      WillEarlier(run, p);
    }
  }

  lemma SendStepSingle(s: State, run: seq<Step>, o: Outpoint)
    requires LegalRun(s, run) && run != [] && Single(s, run, o)
    requires run[0].Select? || run[0].Reserve? || run[0].Abandon?
    requires !Overlap(s, run, o)
    ensures Single(Do(s, run[0]), run[1..], o)
  {
    var s' := Do(s, run[0]);
    forall p ensures WillReserve(s', run[1..], p, o) ==>
      (run[0].Select? && p == run[0].send && o in run[0].inputs) || (p != run[0].send && WillReserve(s, run, p, o))
    {
      WillEarlier(run, p);
    }
    assert !Overlap(s', run[1..], o);
    if run[0].Reserve? {
      var p := run[0].send;
      assert run[0] in run;
      assert Pending(s, p, o) ==> WillReserve(s, run, p, o);
      assert forall q | (q, o) in s'.made :: (q, o) in s.made || (q == p && Pending(s, p, o));
    }
  }

  lemma StepSingle(s: State, run: seq<Step>, o: Outpoint)
    requires LegalRun(s, run) && run != [] && Single(s, run, o) && !Overlap(s, run, o)
    ensures Single(Do(s, run[0]), run[1..], o)
  {
    var s' := Do(s, run[0]);
    assert !Overlap(s', run[1..], o);
    match run[0]
    case Batch(owners, changes, env, height) =>
      BatchKeepsPayments(s.utxo, owners, changes);
      TableStepSingle(s, s'.utxo, run, o);
    case Rollback(_) => TableStepSingle(s, s'.utxo, run, o);
    case Insert(_, _, _, _) => TableStepSingle(s, s'.utxo, run, o);
    case _ => SendStepSingle(s, run, o);
  }

  lemma {:induction false} RunSingle(s: State, run: seq<Step>, o: Outpoint)
    requires LegalRun(s, run) && Single(s, run, o) && !Overlap(s, run, o)
    ensures MadeNoted(After(s, run), o)
    decreases |run|
  {
    if run != [] {
      StepSingle(s, run, o);
      RunSingle(Do(s, run[0]), run[1..], o);
    }
  }

  // Every send that is under way is known.
  predicate PendingKnown(s: State) {
    s.pending.Keys <= s.sends
  }

  // What has been given up is not taken up again.
  lemma {:induction false} NoLongerReserves(s: State, run: seq<Step>, p: int)
    requires LegalRun(s, run) && p in s.sends && p !in s.pending
    ensures Reserve(p) !in run
    decreases |run|
  {
    if run != [] {
      NoLongerReserves(Do(s, run[0]), run[1..], p);
      WillEarlier(run, p);
    }
  }

  // A reservation is never taken back, and a send that reserves reserves what it selected.
  lemma {:induction false} EndsMade(s: State, run: seq<Step>, p: int, o: Outpoint)
    requires LegalRun(s, run) && PendingKnown(s) && (WillReserve(s, run, p, o) || (p, o) in s.made)
    ensures (p, o) in After(s, run).made
    decreases |run|
  {
    if run != [] {
      WillEarlier(run, p);
      if run[0] == Abandon(p) { NoLongerReserves(Do(s, run[0]), run[1..], p); }
      EndsMade(Do(s, run[0]), run[1..], p, o);
    }
  }

  lemma {:induction false} OverlapEndsTwice(s: State, run: seq<Step>, o: Outpoint)
    requires LegalRun(s, run) && PendingKnown(s) && Overlap(s, run, o)
    ensures ReservedTwice(After(s, run), o)
    decreases |run|
  {
    if SharedNow(s, run, o) {
      var p, q :| p != q && WillReserve(s, run, p, o) && WillReserve(s, run, q, o);
      EndsMade(s, run, p, o);
      EndsMade(s, run, q, o);
    } else {
      OverlapEndsTwice(Do(s, run[0]), run[1..], o);
    }
  }

  /** Over any run of sends, failed sends, blocks and rollbacks, an output ends up reserved by two payments exactly when
      at some point two sends had it selected and both went on to reserve. */
  lemma ReservedTwiceIff(u: UtxoTable, run: seq<Step>, o: Outpoint)
    requires LegalRun(Fresh(u), run)
    ensures ReservedTwice(After(Fresh(u), run), o) <==> Overlap(Fresh(u), run, o)
  {
    if Overlap(Fresh(u), run, o) {
      OverlapEndsTwice(Fresh(u), run, o);
    } else {
      RunSingle(Fresh(u), run, o);
    }
  }

  // Each send reserves, or fails, before the next one selects.
  predicate Serial(s: State, run: seq<Step>)
    requires LegalRun(s, run)
    decreases |run|
  {
    run == [] || ((run[0].Select? ==> s.pending == map[]) && Serial(Do(s, run[0]), run[1..]))
  }

  lemma {:induction false} SerialNeverOverlaps(s: State, run: seq<Step>, o: Outpoint)
    requires LegalRun(s, run) && Serial(s, run) && forall p, q | p in s.pending && q in s.pending :: p == q
    ensures !Overlap(s, run, o)
    decreases |run|
  {
    if run != [] {
      SerialNeverOverlaps(Do(s, run[0]), run[1..], o);
    }
  }

  /** When sends do not overlap, no output is ever reserved by two payments, whatever blocks and rollbacks come between
      and however many of the sends fail. */
  lemma SingleReservation(u: UtxoTable, run: seq<Step>, o: Outpoint)
    requires LegalRun(Fresh(u), run) && Serial(Fresh(u), run)
    ensures !ReservedTwice(After(Fresh(u), run), o)
  {
    SerialNeverOverlaps(Fresh(u), run, o);
    ReservedTwiceIff(u, run, o);
  }

  /** Two overlapping sends can reserve one output twice: any spendable output will do. */
  lemma OverlapReservesTwice(u: UtxoTable, account: AccountId, o: Outpoint)
    requires o in Eligible(u, account)
    ensures var run := [Select(1, account, {o}), Select(2, account, {o}), Reserve(1), Reserve(2)];
            && LegalRun(Fresh(u), run) && After(Fresh(u), run).pending == map[]
            && ReservedTwice(After(Fresh(u), run), o)
  {
    var s := Fresh(u);
    var s1 := Do(s, Select(1, account, {o}));
    var s2 := Do(s1, Select(2, account, {o}));
    var s3 := Do(s2, Reserve(1));
    var s4 := Do(s3, Reserve(2));
    var run := [Select(1, account, {o}), Select(2, account, {o}), Reserve(1), Reserve(2)];
    assert run[1..] == [Select(2, account, {o}), Reserve(1), Reserve(2)];
    assert run[1..][1..] == [Reserve(1), Reserve(2)] && run[1..][1..][1..] == [Reserve(2)] && run[1..][1..][1..][1..] == [];
    assert LegalRun(s4, []) && After(s4, []) == s4;
    assert LegalRun(s3, [Reserve(2)]) && After(s3, [Reserve(2)]) == s4;
    assert LegalRun(s2, [Reserve(1), Reserve(2)]) && After(s2, [Reserve(1), Reserve(2)]) == s4;
    assert (1, o) in s4.made && (2, o) in s4.made;
  }

  /** The reservation step is what the payment code does to the table, one input after the other. */
  lemma {:induction false} ReserveAllIsSet(u: UtxoTable, inputs: seq<Fees.Utxo>, payment: int)
    ensures Payments.ReserveAll(u, inputs, payment) == ReserveSet(u, Outpoints(inputs), payment)
    decreases |inputs|
  {
    var outs := Outpoints(inputs);
    if inputs == [] {
      SameMap(u, ReserveSet(u, outs, payment));
    } else {
      var mid := Reserved(u, inputs[0].o, payment);
      ReserveAllIsSet(mid, inputs[1..], payment);
      assert inputs == [inputs[0]] + inputs[1..];
      assert outs == {inputs[0].o} + Outpoints(inputs[1..]);
      SameMap(ReserveSet(mid, Outpoints(inputs[1..]), payment), ReserveSet(u, outs, payment));
    }
  }
}
