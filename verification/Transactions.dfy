/** Runs of whole transactions, given as input bytes. A transaction either takes
    effect as a whole or leaves the ledger as it was, and each is a run of the
    instructions it consists of, so all that holds over runs holds over these. */
module Transactions {
  import opened Base
  import opened ByteStrings
  import opened State
  import opened Invariant
  import opened Runs
  import opened BatchProcessing

  /** One call of the program: what `Processor::process` gets, and its surroundings. */
  datatype Call = Call(accounts: seq<Meta>, input: Bytes, inCpi: bool, epochFee: (Address, u64) -> Option<u64>)

  function CallEnv(env: Env, call: Call): Env {
    env.(inCpi := call.inCpi, epochFee := call.epochFee)
  }

  /** The runtime keeps what a call did if it succeeds and forgets all of it if not. */
  function Transact(env: Env, l: Ledger, call: Call): Ledger {
    var r := Process(CallEnv(env, call), l, call.accounts, call.input);
    if r.Ok? then r.value else l
  }

  /** The instructions of a call, each with its own accounts and data. */
  function Parts(call: Call): seq<Sub> {
    if call.input != [] && call.input[0] == 255 then Cut(call.accounts, call.input[1..])
    else [Sub(call.accounts, call.input)]
  }

  function EventOf(call: Call, sub: Sub): Event
    requires Decode(sub.data).Ok?
  {
    Instruction(sub.accounts, Decode(sub.data).value, call.inCpi, call.epochFee)
  }

  predicate AllDecode(subs: seq<Sub>) {
    forall i | 0 <= i < |subs| :: Decode(subs[i].data).Ok?
  }

  function EventsOf(call: Call, subs: seq<Sub>): (events: seq<Event>)
    requires AllDecode(subs)
    ensures forall e | e in events :: e.Instruction?
  {
    if subs == [] then [] else [EventOf(call, subs[0])] + EventsOf(call, subs[1..])
  }

  lemma OnePart(env: Env, l: Ledger, call: Call, sub: Sub)
    requires Inner(CallEnv(env, call))(l, sub.accounts, sub.data).Ok?
    ensures Decode(sub.data).Ok?
    ensures Next(env, l, EventOf(call, sub)) == Inner(CallEnv(env, call))(l, sub.accounts, sub.data).value
  {
    assert EnvOf(env, EventOf(call, sub)) == CallEnv(env, call);
  }

  lemma {:induction false} SequenceIsRun(env: Env, l: Ledger, call: Call, subs: seq<Sub>)
    requires Sequential(Inner(CallEnv(env, call)), l, subs).Ok?
    ensures AllDecode(subs)
    ensures Exec(env, l, EventsOf(call, subs)) == Sequential(Inner(CallEnv(env, call)), l, subs).value
    decreases |subs|
  {
    if subs != [] {
      OnePart(env, l, call, subs[0]);
      var l' := Inner(CallEnv(env, call))(l, subs[0].accounts, subs[0].data).value;
      SequenceIsRun(env, l', call, subs[1..]);
      assert EventsOf(call, subs)[1..] == EventsOf(call, subs[1..]);
    }
  }

  /** A call that succeeds did what its instructions do in order. */
  lemma CallIsSequence(env: Env, l: Ledger, call: Call)
    requires Process(CallEnv(env, call), l, call.accounts, call.input).Ok?
    ensures Sequential(Inner(CallEnv(env, call)), l, Parts(call)) == Process(CallEnv(env, call), l, call.accounts, call.input)
  {
    var run := Inner(CallEnv(env, call));
    if call.input != [] && call.input[0] == 255 {
      AcceptedBatchIsFrames(run, l, call.accounts, call.input[1..]);
    } else {
      SingleStep(run, l, Sub(call.accounts, call.input));
    }
  }

  lemma SingleStep(run: Step, l: Ledger, sub: Sub)
    ensures Sequential(run, l, [sub]) == run(l, sub.accounts, sub.data)
  {
    assert [sub][1..] == [];
  }

  /** A transaction, batch or not, is a run of its instructions if it succeeds, and the
      empty run if it fails, however much it had written by then. */
  lemma TransactionIsRun(env: Env, l: Ledger, call: Call) returns (events: seq<Event>)
    ensures Transact(env, l, call) == Exec(env, l, events)
    ensures forall e | e in events :: e.Instruction?
    ensures Process(CallEnv(env, call), l, call.accounts, call.input).Err? ==> events == []
    ensures Process(CallEnv(env, call), l, call.accounts, call.input).Ok? ==>
              AllDecode(Parts(call)) && events == EventsOf(call, Parts(call))
  {
    if Process(CallEnv(env, call), l, call.accounts, call.input).Ok? {
      CallIsSequence(env, l, call);
      SequenceIsRun(env, l, call, Parts(call));
      events := EventsOf(call, Parts(call));
    } else {
      events := [];
    }
  }

  /** What happens on the chain: a call into the program, or something else. */
  datatype Happening = Called(call: Call) | Elsewhere(event: Event)

  ghost function Happen(env: Env, l: Ledger, h: Happening): Ledger {
    match h
    case Called(call) => Transact(env, l, call)
    case Elsewhere(event) => Next(env, l, event)
  }

  ghost function History(env: Env, l: Ledger, hs: seq<Happening>): Ledger
    decreases |hs|
  {
    if hs == [] then l else History(env, Happen(env, l, hs[0]), hs[1..])
  }

  lemma {:induction false} ExecConcat(env: Env, l: Ledger, first: seq<Event>, more: seq<Event>)
    ensures Exec(env, l, first + more) == Exec(env, Exec(env, l, first), more)
    decreases |first|
  {
    if first == [] {
      assert first + more == more;
    } else {
      assert (first + more)[1..] == first[1..] + more;
      ExecConcat(env, Next(env, l, first[0]), first[1..], more);
    }
  }

  /** Every history of transactions is a run of instructions and outside events. */
  lemma {:induction false} HistoryIsRun(env: Env, l: Ledger, hs: seq<Happening>) returns (events: seq<Event>)
    ensures History(env, l, hs) == Exec(env, l, events)
    decreases |hs|
  {
    if hs == [] {
      events := [];
    } else {
      var first: seq<Event>;
      if hs[0].Called? {
        first := TransactionIsRun(env, l, hs[0].call);
      } else {
        first := [hs[0].event];
      }
      var more := HistoryIsRun(env, Happen(env, l, hs[0]), hs[1..]);
      ExecConcat(env, l, first, more);
      events := first + more;
    }
  }

  /** So the invariant holds after every history of transactions. */
  lemma HistoriesKeepInvariant(env: Env, hs: seq<Happening>)
    ensures Inv(env, History(env, map[], hs))
  {
    var events := HistoryIsRun(env, map[], hs);
    RunsKeepInvariant(env, events);
  }
}
