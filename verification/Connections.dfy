/** The connection limiter as interleaved atomic steps, and the reaping of finished workers. */
module Connections {
  import opened Results

  // ---- permits ----

  const USIZE_RANGE: nat := 0x1_0000_0000_0000_0000

  /** Where a thread stands in acquiring, holding and dropping a permit. */
  datatype Stage =
    | Trying              // about to load the counter
    | Seen(current: nat)  // loaded a value below the limit, about to compare and exchange
    | Refused
    | Holding
    | Dropped

  datatype State = State(count: nat, threads: map<nat, Stage>)

  /** One atomic operation of one thread, or a new thread. */
  datatype Action = Spawn(id: nat) | Load(id: nat) | CompareExchange(id: nat) | Drop(id: nat)

  /** fetch_sub(1) on a machine word. */
  function Decremented(count: nat): nat { (count + USIZE_RANGE - 1) % USIZE_RANGE }

  lemma DecrementedOnce(count: nat)
    requires 1 <= count < USIZE_RANGE
    ensures Decremented(count) == count - 1
  {
    assert count + USIZE_RANGE - 1 == (count - 1) + USIZE_RANGE;
  }

  function Next(limit: nat, s: State, a: Action): State {
    match a
    case Spawn(id) => if id in s.threads then s else s.(threads := s.threads[id := Trying])
    case Load(id) =>
      if id in s.threads && s.threads[id].Trying? then
        s.(threads := s.threads[id := if s.count >= limit then Refused else Seen(s.count)])
      else s
    case CompareExchange(id) =>
      if id in s.threads && s.threads[id].Seen? then
        if s.count == s.threads[id].current then State(s.count + 1, s.threads[id := Holding])
        else s.(threads := s.threads[id := Trying])
      else s
    case Drop(id) =>
      if id in s.threads && s.threads[id].Holding? then State(Decremented(s.count), s.threads[id := Dropped]) else s
  }

  function Run(limit: nat, actions: seq<Action>): State {
    if actions == [] then State(0, map[]) else Next(limit, Run(limit, actions[..|actions| - 1]), actions[|actions| - 1])
  }

  /** Threads with a live permit. */
  function Holders(threads: map<nat, Stage>): set<nat> { set id | id in threads && threads[id].Holding? }

  ghost predicate Counted(limit: nat, s: State) {
    && s.count == |Holders(s.threads)| && s.count <= limit
    && forall id :: id in s.threads && s.threads[id].Seen? ==> s.threads[id].current < limit
  }

  /** One thread changes its stage: the number of holders changes with it. */
  lemma HoldersAfter(threads: map<nat, Stage>, id: nat, stage: Stage)
    ensures var held := id in threads && threads[id].Holding?;
      |Holders(threads[id := stage])| ==
        |Holders(threads)| + (if stage.Holding? && !held then 1 else 0) - (if held && !stage.Holding? then 1 else 0)
  {
    var a, b := Holders(threads), Holders(threads[id := stage]);
    if stage.Holding? { assert b == a + {id}; } else { assert b == a - {id}; }
  }

  lemma HoldersPositive(threads: map<nat, Stage>, id: nat)
    requires id in threads && threads[id].Holding?
    ensures |Holders(threads)| >= 1
  {
    assert id in Holders(threads);
  }

  lemma NextCounted(limit: nat, s: State, a: Action)
    requires limit < USIZE_RANGE && Counted(limit, s)
    ensures Counted(limit, Next(limit, s, a))
  {
    hide Holders, Decremented;
    match a {
      case Spawn(id) => HoldersAfter(s.threads, id, Trying);
      case Load(id) => HoldersAfter(s.threads, id, if s.count >= limit then Refused else Seen(s.count));
      case CompareExchange(id) =>
        HoldersAfter(s.threads, id, Holding);
        HoldersAfter(s.threads, id, Trying);
      case Drop(id) =>
        HoldersAfter(s.threads, id, Dropped);
        if id in s.threads && s.threads[id].Holding? {
          HoldersPositive(s.threads, id);
          DecrementedOnce(s.count);
        }
    }
  }

  /** In every interleaving the counter equals the live permits and stays within the limit. */
  lemma {:induction false} EveryRunIsCounted(limit: nat, actions: seq<Action>)
    requires limit < USIZE_RANGE
    ensures Counted(limit, Run(limit, actions))
  {
    hide Counted, Next;
    if actions == [] {
      NobodyHolds(limit);
    } else {
      EveryRunIsCounted(limit, actions[..|actions| - 1]);
      NextCounted(limit, Run(limit, actions[..|actions| - 1]), actions[|actions| - 1]);
    }
  }

  lemma NobodyHolds(limit: nat)
    ensures Counted(limit, State(0, map[]))
  {
    assert Holders(map[]) == {};
  }

  /** The counter never underflows: a drop finds at least one permit. */
  lemma DropNeverWraps(limit: nat, actions: seq<Action>, id: nat)
    requires limit < USIZE_RANGE
    requires var s := Run(limit, actions); id in s.threads && s.threads[id].Holding?
    ensures var s := Run(limit, actions);
      s.count >= 1 && Next(limit, s, Drop(id)).count == s.count - 1
  {
    hide Run, Holders, Decremented;
    EveryRunIsCounted(limit, actions);
    HoldersPositive(Run(limit, actions).threads, id);
    DecrementedOnce(Run(limit, actions).count);
  }

  /** A thread is refused exactly when, at its load, all permits are live. */
  lemma RefusedExactlyWhenFull(limit: nat, actions: seq<Action>, id: nat)
    requires limit < USIZE_RANGE
    requires var s := Run(limit, actions); id in s.threads && s.threads[id].Trying?
    ensures var s := Run(limit, actions);
      Next(limit, s, Load(id)).threads[id].Refused? <==> |Holders(s.threads)| == limit
  {
    hide Run, Holders;
    EveryRunIsCounted(limit, actions);
  }

  /** A compare-exchange fails only because another thread changed the counter since the load, and a
      thread that runs alone gets its permit in two steps. */
  lemma AloneAcquires(limit: nat, actions: seq<Action>, id: nat)
    requires limit < USIZE_RANGE
    requires var s := Run(limit, actions); id in s.threads && s.threads[id].Trying? && |Holders(s.threads)| < limit
    ensures var s := Run(limit, actions);
      Next(limit, Next(limit, s, Load(id)), CompareExchange(id)).threads[id].Holding?
  {
    hide Run, Holders;
    EveryRunIsCounted(limit, actions);
  }

  // ---- workers ----

  /** The vector of worker handles; finished(n, w) answers the n-th query, about worker w. */
  class Workers {
    var handles: seq<nat>
    const finished: (nat, nat) -> bool
    var queries: nat

    constructor (handles: seq<nat>, finished: (nat, nat) -> bool)
      ensures this.handles == handles && this.finished == finished && queries == 0
    {
      this.handles, this.finished, queries := handles, finished, 0;
    }

    method IsFinished(index: nat) returns (yes: bool)
      requires index < |handles|
      modifies this`queries
      ensures yes == finished(old(queries), handles[index]) && queries == old(queries) + 1
    {
      yes := finished(queries, handles[index]);
      queries := queries + 1;
    }

    /** Takes out one handle and puts the last one in its place. */
    method SwapRemove(index: nat) returns (worker: nat)
      requires index < |handles|
      modifies this`handles
      ensures worker == old(handles)[index] && |handles| == |old(handles)| - 1
      ensures multiset(handles) == multiset(old(handles)) - multiset{worker}
      ensures handles[..index] == old(handles)[..index]
    {
      var last := |handles| - 1;
      worker := handles[index];
      if index == last { TakenAtEnd(handles); } else { TakenInside(handles, index); }
      TakenFront(handles, index);
      handles := handles[index := handles[last]][..last];
      assert handles == Taken(old(handles), index);
    }

    /** Joins the workers found finished and keeps the others; each is asked exactly once. */
    method Reap() returns (joined: seq<nat>)
      modifies this
      ensures queries == old(queries) + |old(handles)|
      ensures exists answers ::
        && Truthful(finished, old(queries), answers) && Sorted(old(handles), handles, joined, answers)
      ensures forall done: nat -> bool :: DependsOnWorker(finished, done) ==>
        (forall w :: w in joined ==> done(w)) && forall w :: w in handles ==> !done(w)
      ensures multiset(old(handles)) == multiset(handles) + multiset(joined)
    {
      hide Sorting, Sorted, Truthful;
      var index := 0;
      joined := [];
      ghost var answers: seq<(nat, bool)> := [];
      SortedNothing(handles);
      assert Truthful(finished, queries, answers) by { NothingAnswered(finished, queries); }
      while index < |handles|
        invariant 0 <= index <= |handles|
        invariant Sorting(old(handles), handles, index, joined, answers)
        invariant Truthful(finished, old(queries), answers) && queries == old(queries) + |answers|
        decreases |handles| - index
      {
        ghost var before := handles;
        var yes := IsFinished(index);
        ghost var was := answers;
        answers := answers + [(handles[index], yes)];
        OneMoreAnswer(finished, old(queries), was, handles[index], yes);
        if yes {
          var worker := SwapRemove(index);
          RemovedOne(old(handles), before, handles, index, joined, was);
          joined := joined + [worker];
        } else {
          KeptOne(old(handles), handles, index, joined, was);
          index := index + 1;
        }
      }
      SortingDone(old(handles), handles, joined, answers);
      SortedParts(old(handles), handles, joined, answers);
      forall done: nat -> bool | DependsOnWorker(finished, done)
        ensures (forall w :: w in joined ==> done(w)) && forall w :: w in handles ==> !done(w)
      {
        FinishedGo(finished, old(queries), old(handles), handles, joined, answers, done);
      }
    }
  }

  /** The answers are those of the workers, one query after the other. */
  ghost predicate Truthful(finished: (nat, nat) -> bool, first: nat, answers: seq<(nat, bool)>) {
    forall k :: 0 <= k < |answers| ==> answers[k].1 == finished(first + k, answers[k].0)
  }

  /** Whether a worker is finished does not change while they are asked. */
  ghost predicate DependsOnWorker(finished: (nat, nat) -> bool, done: nat -> bool) {
    forall n: nat, w: nat :: finished(n, w) == done(w)
  }

  lemma NothingAnswered(finished: (nat, nat) -> bool, first: nat)
    ensures Truthful(finished, first, [])
  {
  }

  lemma OneMoreAnswer(finished: (nat, nat) -> bool, first: nat, answers: seq<(nat, bool)>, worker: nat, yes: bool)
    requires Truthful(finished, first, answers) && yes == finished(first + |answers|, worker)
    ensures Truthful(finished, first, answers + [(worker, yes)])
  {
  }

  lemma SortedParts(before: seq<nat>, after: seq<nat>, joined: seq<nat>, answers: seq<(nat, bool)>)
    requires Sorted(before, after, joined, answers)
    ensures multiset(before) == multiset(after) + multiset(joined) && |answers| == |before|
  {
  }

  /** When whether a worker is finished does not change, exactly the finished workers go. */
  lemma FinishedGo(finished: (nat, nat) -> bool, first: nat, before: seq<nat>, after: seq<nat>, joined: seq<nat>,
                   answers: seq<(nat, bool)>, done: nat -> bool)
    requires Truthful(finished, first, answers) && Sorted(before, after, joined, answers) && DependsOnWorker(finished, done)
    ensures (forall w :: w in joined ==> done(w)) && forall w :: w in after ==> !done(w)
  {
    hide Answering;
    StableAnswers(answers, done);
    forall w | w in joined ensures done(w) { assert w in multiset(joined); }
    forall w | w in after ensures !done(w) { assert w in multiset(after); }
  }

  lemma Pieces(a: seq<nat>, x: nat, b: seq<nat>)
    ensures multiset(a + [x] + b) == multiset(a) + multiset{x} + multiset(b)
  {
  }

  lemma SwappedPieces(front: seq<nat>, x: nat, rest: seq<nat>, y: nat)
    ensures multiset(front + [y] + rest) == multiset(front + [x] + rest + [y]) - multiset{x}
  {
    Pieces(front, y, rest);
    Pieces(front, x, rest);
    Pieces(front + [x] + rest, y, []);
    assert front + [x] + rest + [y] == front + [x] + rest + [y] + [];
  }

  function Taken(s: seq<nat>, index: nat): seq<nat>
    requires index < |s|
  {
    s[index := s[|s| - 1]][..|s| - 1]
  }

  lemma TakenPieces(front: seq<nat>, x: nat, rest: seq<nat>, y: nat)
    ensures Taken(front + [x] + rest + [y], |front|) == front + [y] + rest
  {
  }

  lemma TakenLast(front: seq<nat>, x: nat)
    ensures Taken(front + [x], |front|) == front && multiset(front) == multiset(front + [x]) - multiset{x}
  {
  }

  /** The last one goes. */
  lemma TakenAtEnd(s: seq<nat>)
    requires s != []
    ensures multiset(Taken(s, |s| - 1)) == multiset(s) - multiset{s[|s| - 1]}
  {
    hide Taken;
    var front, x := s[..|s| - 1], s[|s| - 1];
    TakenLast(front, x);
    assert s == front + [x];
  }

  lemma PiecesTaken(front: seq<nat>, x: nat, rest: seq<nat>, y: nat, s: seq<nat>, index: nat)
    requires s == front + [x] + rest + [y] && index == |front|
    ensures multiset(Taken(s, index)) == multiset(s) - multiset{x}
  {
    hide Taken;
    TakenPieces(front, x, rest, y);
    SwappedPieces(front, x, rest, y);
  }

  /** Another one goes, and the last takes its place. */
  lemma TakenInside(s: seq<nat>, index: nat)
    requires index < |s| - 1
    ensures multiset(Taken(s, index)) == multiset(s) - multiset{s[index]}
  {
    hide Taken;
    PiecesTaken(s[..index], s[index], s[index + 1..|s| - 1], s[|s| - 1], s, index);
  }

  lemma TakenFront(s: seq<nat>, index: nat)
    requires index < |s|
    ensures Taken(s, index)[..index] == s[..index]
  {
  }

  /** The worker a of the answers, if it said yes. */
  function One(a: (nat, bool), yes: bool): multiset<nat> { if a.1 == yes then multiset{a.0} else multiset{} }

  /** Workers by the answer they gave. */
  function Answering(answers: seq<(nat, bool)>, yes: bool): multiset<nat> {
    if answers == [] then multiset{}
    else Answering(answers[..|answers| - 1], yes) + One(answers[|answers| - 1], yes)
  }

  lemma AnsweringAppend(answers: seq<(nat, bool)>, a: (nat, bool), yes: bool)
    ensures Answering(answers + [a], yes) == Answering(answers, yes) + One(a, yes)
  {
    assert (answers + [a])[..|answers|] == answers;
  }

  /** All were asked once; those that said yes were joined, the others are kept. */
  ghost predicate Sorted(before: seq<nat>, after: seq<nat>, joined: seq<nat>, answers: seq<(nat, bool)>) {
    && multiset(before) == multiset(after) + multiset(joined)
    && multiset(joined) == Answering(answers, true) && multiset(after) == Answering(answers, false)
    && |answers| == |before|
  }

  /** The same, up to index. */
  ghost predicate Sorting(before: seq<nat>, now: seq<nat>, index: nat, joined: seq<nat>, answers: seq<(nat, bool)>)
    requires index <= |now|
  {
    && multiset(before) == multiset(now) + multiset(joined)
    && multiset(joined) == Answering(answers, true) && multiset(now[..index]) == Answering(answers, false)
    && |answers| == index + |joined| && |before| == |now| + |joined|
  }

  lemma SortingDone(before: seq<nat>, now: seq<nat>, joined: seq<nat>, answers: seq<(nat, bool)>)
    requires Sorting(before, now, |now|, joined, answers)
    ensures Sorted(before, now, joined, answers)
  {
    assert now[..|now|] == now;
  }

  lemma SortedNothing(handles: seq<nat>)
    ensures Sorting(handles, handles, 0, [], [])
  {
    assert handles[..0] == [];
  }

  lemma RemovedOne(start: seq<nat>, before: seq<nat>, after: seq<nat>, index: nat, joined: seq<nat>, was: seq<(nat, bool)>)
    requires index < |before| && Sorting(start, before, index, joined, was)
    requires |after| == |before| - 1 && multiset(after) == multiset(before) - multiset{before[index]} && after[..index] == before[..index]
    ensures Sorting(start, after, index, joined + [before[index]], was + [(before[index], true)])
  {
    AnsweringAppend(was, (before[index], true), true);
    AnsweringAppend(was, (before[index], true), false);
    assert before[index] in multiset(before);
    assert multiset(joined + [before[index]]) == multiset(joined) + multiset{before[index]};
  }

  lemma PrefixGrows(now: seq<nat>, index: nat)
    requires index < |now|
    ensures multiset(now[..index + 1]) == multiset(now[..index]) + multiset{now[index]}
  {
    assert now[..index + 1] == now[..index] + [now[index]];
  }

  lemma SaidNo(was: seq<(nat, bool)>, worker: nat)
    ensures Answering(was + [(worker, false)], true) == Answering(was, true)
    ensures Answering(was + [(worker, false)], false) == Answering(was, false) + multiset{worker}
  {
    AnsweringAppend(was, (worker, false), true);
    AnsweringAppend(was, (worker, false), false);
  }

  lemma KeptOne(start: seq<nat>, now: seq<nat>, index: nat, joined: seq<nat>, was: seq<(nat, bool)>)
    requires index < |now| && Sorting(start, now, index, joined, was)
    ensures Sorting(start, now, index + 1, joined, was + [(now[index], false)])
  {
    hide Answering;
    SaidNo(was, now[index]);
    PrefixGrows(now, index);
  }

  /** When the answers depend on the worker only, exactly the finished workers go. */
  lemma {:induction false} StableAnswers(answers: seq<(nat, bool)>, done: nat -> bool)
    requires forall a :: a in answers ==> a.1 == done(a.0)
    ensures forall w :: w in Answering(answers, true) ==> done(w)
    ensures forall w :: w in Answering(answers, false) ==> !done(w)
  {
    if answers != [] {
      var n := |answers| - 1;
      assert answers[n] in answers;
      StableAnswers(answers[..n], done);
    }
  }
}
