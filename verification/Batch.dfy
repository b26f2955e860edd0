/** One body's replies: responses fill slots in any order, and the last fill sends them all. */
module Batches {
  import opened Prelude
  import opened JsonSchemas
  import opened Dispatchers
  import opened Handlers

  /** What goes out: an empty reply, one response, an array of them, or the bare result or error. */
  datatype Frame = Empty | One(response: Response) | Many(responses: seq<Response>) | Bare(failed: bool, body: Json)

  /** A slot that was skipped holds nothing. */
  function Filled(slots: seq<Option<Response>>): seq<Response> {
    if slots == [] then []
    else
      var last := slots[|slots| - 1];
      Filled(slots[..|slots| - 1]) + if last.Some? then [last.value] else []
  }

  function FrameOf(slots: seq<Option<Response>>, single: bool, rest: bool): Frame {
    var out := Filled(slots);
    if out == [] then Empty
    else if rest then Bare(out[0].failed, out[0].body)
    else if single && |out| == 1 then One(out[0])
    else Many(out)
  }

  class Batch {
    const single: bool
    const restShape: bool
    var slots: seq<Option<Response>>
    var remaining: int
    var sent: seq<Frame>

    constructor (expected: nat, single: bool, restShape: bool)
      ensures slots == seq(expected, i => None) && remaining == expected && sent == []
      ensures this.single == single && this.restShape == restShape
    {
      this.single, this.restShape := single, restShape;
      slots, remaining, sent := seq(expected, i => None), expected, [];
    }

    /** The locked half of fill() and of skip(). */
    method Store(slot: nat, response: Option<Response>)
      modifies `slots
      ensures slots == if slot < |old(slots)| then old(slots)[slot := response] else old(slots)
    {
      if slot < |slots| {
        slots := slots[slot := response];
      }
    }

    /** The atomic half: true for the last fill. */
    method CountDown() returns (last: bool)
      modifies `remaining
      ensures remaining == old(remaining) - 1 && last == (remaining == 0)
    {
      last := remaining == 1;
      remaining := remaining - 1;
    }

    method Flush()
      modifies `slots, `sent
      ensures slots == [] && sent == old(sent) + [FrameOf(old(slots), single, restShape)]
    {
      var taken := slots;
      slots := [];
      var out := [];
      for i := 0 to |taken|
        invariant out == Filled(taken[..i]) && slots == [] && sent == old(sent)
      {
        assert taken[..i + 1][..i] == taken[..i];
        if taken[i].Some? {
          out := out + [taken[i].value];
        }
      }
      assert taken[..|taken|] == taken;
      if out == [] {
        sent := sent + [Empty];
      } else if restShape {
        sent := sent + [Bare(out[0].failed, out[0].body)];
      } else {
        sent := sent + [if single && |out| == 1 then One(out[0]) else Many(out)];
      }
    }
  }

  // ---------------------------------------------------------------------------
  // Every order of completion
  // ---------------------------------------------------------------------------

  /** Where a request is: not read yet, queued on the pump as a job, out upstream, its response ready, its
      response stored, or counted. */
  datatype Stage = Unread | Queued(job: Job) | Out(job: Job) | Ready(response: Response) | Stored(response: Response) | Done(response: Response)

  /** `flushing`: fills that saw the counter reach zero and have not flushed yet. */
  datatype Sys = Sys(stages: seq<Stage>, cursor: nat, slots: seq<Option<Response>>, remaining: int, flushing: nat, sent: seq<Frame>)

  datatype Action =
    | Read(env: Env)                                             // the socket thread handles the next request
    | RunJob(slot: nat, answered: bool, failed: bool, body: Json)
    | Answer(slot: nat, failed: bool, body: Json)
    | Store(slot: nat)
    | Count(slot: nat)
    | Flush

  function Begin(n: nat): Sys {
    Sys(seq(n, i => Unread), 0, seq(n, i => None), n, 0, [])
  }

  function Move(s: Sys, i: nat, stage: Stage): Sys
    requires i < |s.stages|
  {
    s.(stages := s.stages[i := stage])
  }

  /** What handleOne makes of a request: its response at once, or a job. */
  function FirstStage(env: Env, raw: Json): Stage {
    match Handled(env, raw)
    case Fill(r) => Ready(r)
    case Queue(job) => Queued(job)
  }

  /** A job answers with the id it carries. */
  function Step(raws: seq<Json>, single: bool, rest: bool, s: Sys, a: Action): Sys {
    match a
    case Read(env) =>
      if s.cursor < |s.stages| && s.cursor < |raws| then Move(s, s.cursor, FirstStage(env, raws[s.cursor])).(cursor := s.cursor + 1)
      else s
    case RunJob(i, answered, failed, body) =>
      if i < |s.stages| && s.stages[i].Queued? then
        var job := s.stages[i].job;
        Move(s, i, if answered then Ready(Response(job.id, failed, body)) else Out(job))
      else s
    case Answer(i, failed, body) =>
      if i < |s.stages| && s.stages[i].Out? then Move(s, i, Ready(Response(s.stages[i].job.id, failed, body))) else s
    case Store(i) =>
      if i < |s.stages| && s.stages[i].Ready? then
        var r := s.stages[i].response;
        Move(s, i, Stored(r)).(slots := if i < |s.slots| then s.slots[i := Some(r)] else s.slots)
      else s
    case Count(i) =>
      if i < |s.stages| && s.stages[i].Stored? then
        Move(s, i, Done(s.stages[i].response)).(remaining := s.remaining - 1, flushing := s.flushing + B(s.remaining == 1))
      else s
    case Flush =>
      if s.flushing > 0 then s.(flushing := s.flushing - 1, slots := [], sent := s.sent + [FrameOf(s.slots, single, rest)]) else s
  }

  /** Requests not counted yet. */
  function Open(stages: seq<Stage>): nat {
    if stages == [] then 0 else Open(stages[..|stages| - 1]) + B(!stages[|stages| - 1].Done?)
  }

  lemma {:induction false} OpenUpdate(stages: seq<Stage>, i: nat, stage: Stage)
    requires i < |stages|
    ensures Open(stages[i := stage]) == Open(stages) - B(!stages[i].Done?) + B(!stage.Done?)
  {
    var last := |stages| - 1;
    if i < last {
      OpenUpdate(stages[..last], i, stage);
      assert stages[i := stage][..last] == stages[..last][i := stage];
    } else {
      assert stages[i := stage][..last] == stages[..last];
    }
  }

  lemma {:induction false} OpenZero(stages: seq<Stage>)
    ensures Open(stages) == 0 <==> forall i | 0 <= i < |stages| :: stages[i].Done?
  {
    if stages != [] {
      OpenZero(stages[..|stages| - 1]);
      assert forall i | 0 <= i < |stages| - 1 :: stages[..|stages| - 1][i] == stages[i];
    }
  }

  /** The response a request has come to, once it has one. */
  function ResponseOf(stage: Stage): Option<Response> {
    if stage.Ready? || stage.Stored? || stage.Done? then Some(stage.response) else None
  }

  /** The id a request's job or response carries, once it has one. */
  function Carries(stage: Stage): Option<Json> {
    match stage
    case Unread => None
    case Queued(job) => Some(job.id)
    case Out(job) => Some(job.id)
    case Ready(r) => Some(r.id)
    case Stored(r) => Some(r.id)
    case Done(r) => Some(r.id)
  }

  ghost predicate Echoes(raws: seq<Json>, s: Sys) {
    |s.stages| == |raws| && forall i | 0 <= i < |raws| && Carries(s.stages[i]).Some? :: Carries(s.stages[i]).value == ReplyId(raws[i])
  }

  /** The responses in request order. */
  function Responses(stages: seq<Stage>): seq<Option<Response>> {
    seq(|stages|, i requires 0 <= i < |stages| => ResponseOf(stages[i]))
  }

  ghost predicate Inv(raws: seq<Json>, single: bool, rest: bool, s: Sys) {
    && Echoes(raws, s) && s.cursor <= |raws|
    && (forall i | s.cursor <= i < |raws| :: s.stages[i].Unread?)
    && s.remaining == Open(s.stages) && s.flushing + |s.sent| == B(s.remaining == 0)
    && (s.sent == [] ==> |s.slots| == |raws|)
    && (s.sent == [] ==> forall i | 0 <= i < |raws| && (s.stages[i].Stored? || s.stages[i].Done?) :: s.slots[i] == ResponseOf(s.stages[i]))
    && (s.sent != [] ==> s.sent == [FrameOf(Responses(s.stages), single, rest)])
  }

  lemma MoveKeeps(raws: seq<Json>, single: bool, rest: bool, s: Sys, a: Action)
    requires raws != [] && Inv(raws, single, rest, s) && (a.Read? || a.RunJob? || a.Answer?)
    ensures Inv(raws, single, rest, Step(raws, single, rest, s, a))
  {
    hide Handled;
    var s' := Step(raws, single, rest, s, a);
    var i := if a.Read? then s.cursor else a.slot;
    OpenZero(s.stages);
    if i < |s.stages| {
      if a.Read? {
        OutcomeEchoesId(a.env, raws[i]);
      }
      OpenUpdate(s.stages, i, s'.stages[i]);
      assert s'.stages == s.stages[i := s'.stages[i]];
    }
  }

  lemma StoreKeeps(raws: seq<Json>, single: bool, rest: bool, s: Sys, i: nat)
    requires raws != [] && Inv(raws, single, rest, s)
    ensures Inv(raws, single, rest, Step(raws, single, rest, s, Store(i)))
  {
    OpenZero(s.stages);
    if i < |s.stages| && s.stages[i].Ready? {
      OpenUpdate(s.stages, i, Stored(s.stages[i].response));
    }
  }

  lemma CountKeeps(raws: seq<Json>, single: bool, rest: bool, s: Sys, i: nat)
    requires raws != [] && Inv(raws, single, rest, s)
    ensures Inv(raws, single, rest, Step(raws, single, rest, s, Count(i)))
  {
    OpenZero(s.stages);
    if i < |s.stages| && s.stages[i].Stored? {
      OpenUpdate(s.stages, i, Done(s.stages[i].response));
    }
  }

  lemma FlushKeeps(raws: seq<Json>, single: bool, rest: bool, s: Sys)
    requires raws != [] && Inv(raws, single, rest, s)
    ensures Inv(raws, single, rest, Step(raws, single, rest, s, Flush))
  {
    OpenZero(s.stages);
    if s.flushing > 0 {
      assert s.slots == Responses(s.stages);
      assert s.sent + [FrameOf(s.slots, single, rest)] == [FrameOf(s.slots, single, rest)];
    }
  }

  function Run(raws: seq<Json>, single: bool, rest: bool, run: seq<Action>): Sys {
    if run == [] then Begin(|raws|)
    else Step(raws, single, rest, Run(raws, single, rest, run[..|run| - 1]), run[|run| - 1])
  }

  lemma {:induction false} OpenUnread(n: nat)
    ensures Open(seq(n, i => Unread)) == n
  {
    if n > 0 {
      OpenUnread(n - 1);
      var s: seq<Stage> := seq(n, i => Unread);
      assert s[..n - 1] == seq(n - 1, i => Unread);
    }
  }

  lemma {:induction false} RunKeeps(raws: seq<Json>, single: bool, rest: bool, run: seq<Action>)
    requires raws != []
    ensures Inv(raws, single, rest, Run(raws, single, rest, run))
  {
    if run == [] {
      OpenUnread(|raws|);
    } else {
      var s := Run(raws, single, rest, run[..|run| - 1]);
      RunKeeps(raws, single, rest, run[..|run| - 1]);
      hide Inv, Step;
      match run[|run| - 1]
      case Store(i) => StoreKeeps(raws, single, rest, s, i);
      case Count(i) => CountKeeps(raws, single, rest, s, i);
      case Flush => FlushKeeps(raws, single, rest, s);
      case a => MoveKeeps(raws, single, rest, s, a);
    }
  }

  /** In every order of completion: nothing is sent before the last request is counted; then exactly one
      flush is due or done, and what it sends is every response, in request order, each with its
      request's id echoed. */
  lemma {:induction false} OneReplyInOrder(raws: seq<Json>, single: bool, rest: bool, run: seq<Action>)
    requires raws != []
    ensures
      var s := Run(raws, single, rest, run);
      && |s.stages| == |raws|
      && s.flushing + |s.sent| == B(forall i | 0 <= i < |raws| :: s.stages[i].Done?)
      && (s.sent != [] ==>
            && s.sent == [FrameOf(Responses(s.stages), single, rest)]
            && forall i | 0 <= i < |raws| :: s.stages[i].Done? && s.stages[i].response.id == ReplyId(raws[i]))
  {
    RunKeeps(raws, single, rest, run);
    var s := Run(raws, single, rest, run);
    OpenZero(s.stages);
    hide Run;
  }

  /** A batch of several requests is answered by an array with one response for each, at its place. */
  lemma {:induction false} AllFilled(slots: seq<Option<Response>>)
    requires forall i | 0 <= i < |slots| :: slots[i].Some?
    ensures |Filled(slots)| == |slots| && forall i | 0 <= i < |slots| :: Filled(slots)[i] == slots[i].value
  {
    if slots != [] {
      AllFilled(slots[..|slots| - 1]);
    }
  }

  /** A call by its HTTP path is answered by its bare result, or its bare error, alone. */
  lemma {:induction false} RestReply(raw: Json, run: seq<Action>)
    requires Run([raw], true, true, run).sent != []
    ensures
      var s := Run([raw], true, true, run);
      |s.stages| == 1 && s.stages[0].Done? && s.sent == [Bare(s.stages[0].response.failed, s.stages[0].response.body)]
  {
    OneReplyInOrder([raw], true, true, run);
    AllFilled(Responses(Run([raw], true, true, run).stages));
    hide Run;
  }

  /** The reply to a body: one object for a single request, otherwise an array of as many responses as
      requests, in their order, each echoing its request's id. */
  lemma {:induction false} ReplyShape(raws: seq<Json>, single: bool, run: seq<Action>)
    requires raws != [] && (single ==> |raws| == 1) && Run(raws, single, false, run).sent != []
    ensures
      var s := Run(raws, single, false, run);
      var frame := s.sent[0];
      && |s.stages| == |raws| && (forall i | 0 <= i < |raws| :: s.stages[i].Done?)
      && if single then frame == One(s.stages[0].response) && frame.response.id == ReplyId(raws[0])
         else
           && frame.Many? && |frame.responses| == |raws|
           && forall i | 0 <= i < |raws| :: frame.responses[i] == s.stages[i].response && frame.responses[i].id == ReplyId(raws[i])
  {
    OneReplyInOrder(raws, single, false, run);
    AllFilled(Responses(Run(raws, single, false, run).stages));
    hide Run;
  }
}
