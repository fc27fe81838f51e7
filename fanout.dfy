/**
 Best-effort delivery. The relay writes one message to a list of channels
 in turn; a write that fails is caught and skipped, and the rest are still
 written. Which channels fail is not under the relay's control, so it is a
 parameter: `failing` is the set of channels whose writes raise.
 */
module Fanout {
  import opened Messages

  /**
   The deliveries that succeed when `m` is written to each of `conns` in
   turn: one per occurrence of a channel that does not fail, in the order
   of `conns`, and nothing else.
   */
  function Sends(conns: seq<ConnId>, m: Outbound, failing: set<ConnId>): (out: seq<Send>)
    ensures |out| <= |conns|
    ensures failing == {} ==> |out| == |conns|
  {
    if conns == [] then []
    else (if conns[0] in failing then [] else [Send(conns[0], m)]) + Sends(conns[1..], m, failing)
  }

  /** Every delivery carries `m` to one of `conns` that does not fail. */
  lemma {:induction false} SendsSound(conns: seq<ConnId>, m: Outbound, failing: set<ConnId>)
    ensures forall x :: x in Sends(conns, m, failing) ==> x.msg == m && x.conn in conns && x.conn !in failing
  {
    if conns != [] {
      SendsSound(conns[1..], m, failing);
    }
  }

  /** A failing channel does not stop the rest: every channel of `conns` that does not fail gets `m`. */
  lemma {:induction false} SendsComplete(conns: seq<ConnId>, m: Outbound, failing: set<ConnId>)
    ensures forall c :: c in conns && c !in failing ==> Send(c, m) in Sends(conns, m, failing)
  {
    if conns != [] {
      SendsComplete(conns[1..], m, failing);
      assert forall c :: c in conns ==> c == conns[0] || c in conns[1..];
    }
  }

  /**
   Deliveries are counted per entry of `conns`, not per channel: a channel
   listed `k` times gets `m` exactly `k` times unless its writes fail, and
   then never.
   */
  lemma {:induction false} SendsCount(conns: seq<ConnId>, m: Outbound, failing: set<ConnId>, c: ConnId)
    ensures multiset(Sends(conns, m, failing))[Send(c, m)] == if c in failing then 0 else multiset(conns)[c]
  {
    if conns != [] {
      var head := if conns[0] in failing then [] else [Send(conns[0], m)];
      var rest := Sends(conns[1..], m, failing);
      var own := if c in failing then 0 else multiset([conns[0]])[c];
      calc {
        multiset(Sends(conns, m, failing))[Send(c, m)];
      ==
        (multiset(head) + multiset(rest))[Send(c, m)];
      ==
        multiset(head)[Send(c, m)] + multiset(rest)[Send(c, m)];
      == { SendsCount(conns[1..], m, failing, c); }
        own + (if c in failing then 0 else multiset(conns[1..])[c]);
      == { assert conns == [conns[0]] + conns[1..]; }
        if c in failing then 0 else multiset(conns)[c];
      }
    }
  }

  /** Writing to `a` and then to `b` delivers what each part delivers, in that order. */
  lemma {:induction false} SendsAppend(a: seq<ConnId>, b: seq<ConnId>, m: Outbound, failing: set<ConnId>)
    ensures Sends(a + b, m, failing) == Sends(a, m, failing) + Sends(b, m, failing)
  {
    if a == [] {
      assert a + b == b;
    } else {
      var head := if a[0] in failing then [] else [Send(a[0], m)];
      calc {
        Sends(a + b, m, failing);
      == { assert (a + b)[0] == a[0] && (a + b)[1..] == a[1..] + b; }
        head + Sends(a[1..] + b, m, failing);
      == { SendsAppend(a[1..], b, m, failing); }
        head + (Sends(a[1..], m, failing) + Sends(b, m, failing));
      ==
        (head + Sends(a[1..], m, failing)) + Sends(b, m, failing);
      }
    }
  }

  /**
   The delivery loop: `m` is written to each channel of `conns` in turn,
   a failing write is skipped, and what is delivered is what `Sends` says.
   */
  method Deliver(conns: seq<ConnId>, m: Outbound, failing: set<ConnId>) returns (out: seq<Send>)
    ensures out == Sends(conns, m, failing)
  {
    out := [];
    var i := 0;
    while i < |conns|
      invariant 0 <= i <= |conns|
      invariant out == Sends(conns[..i], m, failing)
    {
      var conn := conns[i];
      if conn !in failing {
        out := out + [Send(conn, m)];
      }
      assert conns[..i + 1] == conns[..i] + [conn];
      SendsAppend(conns[..i], [conn], m, failing);
      i := i + 1;
    }
    assert conns[..i] == conns;
  }
}
