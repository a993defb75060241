/** `BackendSignal`: a one-slot edge flag. `send` sets it, `recv` tests and
    clears it. Sends before a `recv` collapse into one pending edge. */
module Signal {
  import opened Wrappers

  datatype BackendSignal = BackendSignal(isSet: bool)

  /** `__init__`: the underlying event starts cleared. */
  function New(): (r: BackendSignal)
    ensures !r.isSet
  {
    BackendSignal(false)
  }

  /** `send`: set the flag, whatever its state. */
  function Send(s: BackendSignal): (r: BackendSignal)
    ensures r.isSet
  {
    BackendSignal(true)
  }

  /** `recv`: report whether the flag was set, and leave it cleared. */
  function Recv(s: BackendSignal): (r: (bool, BackendSignal))
    ensures r.0 <==> s.isSet
    ensures !r.1.isSet
  {
    if s.isSet then (true, BackendSignal(false)) else (false, s)
  }

  /** Sending is idempotent. */
  lemma SendIdempotent(s: BackendSignal)
    ensures Send(Send(s)) == Send(s)
  {
  }

  // ---------------------------------------------------------------------------
  // Sequences of calls

  datatype Op = SendOp | RecvOp

  /** One call: `send` returns nothing, `recv` returns its flag. */
  function Step(s: BackendSignal, op: Op): (BackendSignal, Option<bool>)
  {
    match op
    case SendOp => (Send(s), None)
    case RecvOp => var (b, s') := Recv(s); (s', Some(b))
  }

  /** Performs `ops` in order, returning the final flag and what each call
      returned, position by position. */
  function Run(s: BackendSignal, ops: seq<Op>): (r: (BackendSignal, seq<Option<bool>>))
    ensures |r.1| == |ops|
    ensures forall i :: 0 <= i < |ops| ==> (r.1[i].None? <==> ops[i] == SendOp)
    decreases |ops|
  {
    if ops == [] then (s, [])
    else
      var (s1, outs) := Run(s, ops[..|ops| - 1]);
      var (s2, out) := Step(s1, ops[|ops| - 1]);
      (s2, outs + [out])
  }

  /** No `recv` occurs in `ops` after position `j`. */
  ghost predicate NoRecvAfter(ops: seq<Op>, j: int)
  {
    forall k :: 0 <= k < |ops| && j < k ==> ops[k] != RecvOp
  }

  /** An edge is pending after `ops`, starting from a flag `init`: some
      `send` happened after the last `recv`, or the flag started set and no
      `recv` happened at all. */
  ghost predicate PendingEdge(init: bool, ops: seq<Op>)
  {
    || (exists j :: 0 <= j < |ops| && ops[j] == SendOp && NoRecvAfter(ops, j))
    || (init && NoRecvAfter(ops, -1))
  }

  /** After any sequence of calls the flag is set exactly when an edge is
      pending. Only the last call matters: a final `send` leaves the flag set
      and a final `recv` leaves it cleared. */
  lemma RunFlagIsPendingEdge(init: bool, ops: seq<Op>)
    ensures Run(BackendSignal(init), ops).0.isSet <==> PendingEdge(init, ops)
  {
    if ops == [] {
    } else {
      var n := |ops| - 1;
      if ops[n] == SendOp {
        assert NoRecvAfter(ops, n);
      } else {
        assert ops[n] == RecvOp;
        assert !NoRecvAfter(ops, -1);
        forall j | 0 <= j < |ops| && ops[j] == SendOp
          ensures !NoRecvAfter(ops, j)
        {
          assert j < n;
        }
      }
    }
  }

  /** Every `recv` in a sequence of calls returns true exactly when an edge
      was pending before it: one `recv` consumes all sends since the
      previous one. */
  lemma {:induction false} RecvReportsPendingEdge(init: bool, ops: seq<Op>)
    ensures forall i :: 0 <= i < |ops| && ops[i] == RecvOp ==>
              Run(BackendSignal(init), ops).1[i] == Some(PendingEdge(init, ops[..i]))
    decreases |ops|
  {
    if ops != [] {
      var n := |ops| - 1;
      var p := ops[..n];
      assert ops[..n] == p;
      RecvReportsPendingEdge(init, p);
      RunFlagIsPendingEdge(init, p);
      forall i | 0 <= i < |ops| && ops[i] == RecvOp
        ensures Run(BackendSignal(init), ops).1[i] == Some(PendingEdge(init, ops[..i]))
      {
        if i < n {
          assert ops[..i] == p[..i];
          assert p[i] == ops[i];
        }
      }
    }
  }

  /** `count` consecutive sends. */
  function Sends(count: nat): (ops: seq<Op>)
    ensures |ops| == count
    ensures forall i :: 0 <= i < count ==> ops[i] == SendOp
  {
    seq(count, _ => SendOp)
  }

  /** Any positive number of sends followed by two receives: the first
      `recv` returns true, the second returns false. */
  lemma SendsThenTwoRecvs(init: bool, count: nat)
    requires count >= 1
    ensures var ops := Sends(count) + [RecvOp, RecvOp];
            var outs := Run(BackendSignal(init), ops).1;
            outs[count] == Some(true) && outs[count + 1] == Some(false)
  {
    var ops := Sends(count) + [RecvOp, RecvOp];
    RecvReportsPendingEdge(init, ops);
    assert ops[..count] == Sends(count);
    assert NoRecvAfter(ops[..count], count - 1);
    assert ops[..count + 1] == Sends(count) + [RecvOp];
    assert !PendingEdge(init, ops[..count + 1]) by {
      var q := ops[..count + 1];
      assert q[count] == RecvOp;
      assert !NoRecvAfter(q, -1);
      forall j | 0 <= j < |q| && q[j] == SendOp
        ensures !NoRecvAfter(q, j)
      {
        assert j < count;
      }
    }
  }
}
