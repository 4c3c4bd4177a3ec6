/**
  The in-memory status of QR payments: a dictionary from transaction id to a
  session holding its status, its amount and the time it was opened. A
  checkout paid by QR opens a pending session; polling the status expires a
  pending session older than five minutes, and the expiry sticks; the manual
  mark-paid endpoint marks a session paid, or opens a paid one with amount 0
  for an id it does not know. The wall clock is a parameter (seconds, as
  Python's time.time() gives them); amounts are in cents.
*/
module QrTracker {

  datatype Status = Pending | Paid | Canceled | Expired

  datatype Session = Session(status: Status, amount: int, created: real)

  /** What the status endpoint answers: "unknown", or the status and the amount. */
  datatype Reply = Unknown | Known(status: Status, amount: int)

  /** Seconds a pending QR payment stays valid; also the "expires_in" of the checkout reply. */
  const Lifetime: real := 300.0

  function StatusText(s: Status): string {
    match s
    case Pending => "pending"
    case Paid => "paid"
    case Canceled => "canceled"
    case Expired => "expired"
  }

  function ReplyStatusText(r: Reply): string {
    if r.Unknown? then "unknown" else StatusText(r.status)
  }

  /**
    A session as a poll at time now leaves it: a pending session becomes
    expired once strictly more than Lifetime seconds have passed since it was
    opened; otherwise nothing changes.
  */
  function Observe(s: Session, now: real): (r: Session)
    ensures r.amount == s.amount && r.created == s.created
    ensures s.status != Pending ==> r == s
    ensures r.status == Pending <==> s.status == Pending && now - s.created <= Lifetime
    ensures r.status == Expired <==> s.status == Expired || (s.status == Pending && now - s.created > Lifetime)
  {
    if s.status == Pending && now - s.created > Lifetime then s.(status := Expired) else s
  }

  /** Polling again at the same or a later time agrees with polling only at the later time. */
  lemma ObserveLater(s: Session, t1: real, t2: real)
    requires t1 <= t2
    ensures Observe(Observe(s, t1), t2) == Observe(s, t2)
  {
  }

  /** The dictionary after a poll of id at time now. */
  function PollIn(m: map<int, Session>, id: int, now: real): (r: map<int, Session>)
    ensures r.Keys == m.Keys
    ensures forall k :: k in m && k != id ==> r[k] == m[k]
    ensures id in m ==> r[id] == Observe(m[id], now)
  {
    if id in m then m[id := Observe(m[id], now)] else m
  }

  /** What a poll of id at time now answers. */
  function PollReply(m: map<int, Session>, id: int, now: real): (r: Reply)
    ensures r.Unknown? <==> id !in m
    ensures r.Known? ==> r.amount == m[id].amount && r.status == PollIn(m, id, now)[id].status
  {
    if id in m then Known(Observe(m[id], now).status, m[id].amount) else Unknown
  }

  /** The dictionary after marking id paid at time now. */
  function MarkPaidIn(m: map<int, Session>, id: int, now: real): (r: map<int, Session>)
    ensures r.Keys == m.Keys + {id}
    ensures forall k :: k in m && k != id ==> r[k] == m[k]
    ensures r[id].status == Paid
    ensures id in m ==> r[id] == m[id].(status := Paid)
    ensures id !in m ==> r[id] == Session(Paid, 0, now)
  {
    if id in m then m[id := m[id].(status := Paid)] else m[id := Session(Paid, 0, now)]
  }

  /** The dictionary after a QR checkout of transaction id for amount at time now. */
  function OpenIn(m: map<int, Session>, id: int, amount: int, now: real): (r: map<int, Session>)
    ensures r.Keys == m.Keys + {id}
    ensures forall k :: k in m && k != id ==> r[k] == m[k]
    ensures r[id] == Session(Pending, amount, now)
  {
    m[id := Session(Pending, amount, now)]
  }

  /** One request that touches the dictionary. */
  datatype Event = Poll(id: int, now: real) | MarkPaid(id: int, now: real) | Open(id: int, amount: int, now: real)

  function Step(m: map<int, Session>, e: Event): map<int, Session> {
    match e
    case Poll(id, now) => PollIn(m, id, now)
    case MarkPaid(id, now) => MarkPaidIn(m, id, now)
    case Open(id, amount, now) => OpenIn(m, id, amount, now)
  }

  function Run(m: map<int, Session>, es: seq<Event>): map<int, Session>
    decreases |es|
  {
    if es == [] then m else Run(Step(m, es[0]), es[1..])
  }

  /** No checkout reuses the transaction id. */
  predicate NoOpen(es: seq<Event>, id: int) {
    forall i :: 0 <= i < |es| ==> !(es[i].Open? && es[i].id == id)
  }

  /** Once paid, a session stays paid, with the same amount, whatever is polled or marked later. */
  lemma {:induction false} PaidIsFinal(m: map<int, Session>, es: seq<Event>, id: int)
    requires id in m && m[id].status == Paid
    requires NoOpen(es, id)
    ensures id in Run(m, es) && Run(m, es)[id].status == Paid && Run(m, es)[id].amount == m[id].amount
    decreases |es|
  {
    if es != [] {
      assert NoOpen(es[1..], id) by {
        forall i | 0 <= i < |es[1..]| ensures !(es[1..][i].Open? && es[1..][i].id == id) {
          assert es[1..][i] == es[i + 1];
        }
      }
      PaidIsFinal(Step(m, es[0]), es[1..], id);
    }
  }

  /** A session is settled when it can no longer expire. */
  predicate Settled(s: Status) {
    s == Paid || s == Expired
  }

  /** An expired session never becomes pending again: it stays expired unless it is marked paid. */
  lemma {:induction false} SettledIsFinal(m: map<int, Session>, es: seq<Event>, id: int)
    requires id in m && Settled(m[id].status)
    requires NoOpen(es, id)
    ensures id in Run(m, es) && Settled(Run(m, es)[id].status) && Run(m, es)[id].amount == m[id].amount
    decreases |es|
  {
    if es != [] {
      assert NoOpen(es[1..], id) by {
        forall i | 0 <= i < |es[1..]| ensures !(es[1..][i].Open? && es[1..][i].id == id) {
          assert es[1..][i] == es[i + 1];
        }
      }
      SettledIsFinal(Step(m, es[0]), es[1..], id);
    }
  }

  /** A pending session polled later than Lifetime after it was opened is no longer pending, whatever else happens. */
  lemma {:induction false} PollAfterLifetimeSettles(m: map<int, Session>, es: seq<Event>, id: int, k: nat)
    requires id in m && m[id].status == Pending
    requires NoOpen(es, id)
    requires k < |es| && es[k] == Poll(id, es[k].now) && es[k].now - m[id].created > Lifetime
    ensures id in Run(m, es) && Settled(Run(m, es)[id].status) && Run(m, es)[id].amount == m[id].amount
    decreases |es|
  {
    var m1 := Step(m, es[0]);
    assert NoOpen(es[1..], id) by {
      forall i | 0 <= i < |es[1..]| ensures !(es[1..][i].Open? && es[1..][i].id == id) {
        assert es[1..][i] == es[i + 1];
      }
    }
    assert id in m1 && m1[id].amount == m[id].amount && m1[id].created == m[id].created;
    if k == 0 {
      SettledIsFinal(m1, es[1..], id);
    } else if Settled(m1[id].status) {
      SettledIsFinal(m1, es[1..], id);
    } else {
      assert es[1..][k - 1] == es[k];
      PollAfterLifetimeSettles(m1, es[1..], id, k - 1);
    }
  }

  /** The dictionary and the endpoints that read and change it. */
  class Tracker {
    var sessions: map<int, Session>

    constructor()
      ensures sessions == map[]
    {
      sessions := map[];
    }

    /** A QR checkout opens a pending session for its transaction. */
    method Open(id: int, amount: int, now: real)
      modifies this
      ensures sessions == OpenIn(old(sessions), id, amount, now)
    {
      sessions := sessions[id := Session(Pending, amount, now)];
    }

    /** qr_status: the answer, and the expiry it records. */
    method Poll(id: int, now: real) returns (r: Reply)
      modifies this
      ensures sessions == PollIn(old(sessions), id, now)
      ensures r == PollReply(old(sessions), id, now)
    {
      if id !in sessions {
        return Unknown;
      }
      var s := sessions[id];
      if s.status == Pending && now - s.created > Lifetime {
        s := s.(status := Expired);
        sessions := sessions[id := s];
      }
      return Known(s.status, s.amount);
    }

    /** qr_mark_paid. */
    method MarkPaid(id: int, now: real)
      modifies this
      ensures sessions == MarkPaidIn(old(sessions), id, now)
    {
      if id !in sessions {
        sessions := sessions[id := Session(Paid, 0, now)];
      } else {
        sessions := sessions[id := sessions[id].(status := Paid)];
      }
    }
  }

  /**
    A QR sale of 12.34 opened at time 0: still pending when polled at exactly
    300 seconds, expired at 301, and paid after the manual mark, with its amount
    kept throughout.
  */
  lemma ExpiryTimeline()
    ensures var m0 := OpenIn(map[], 7, 1234, 0.0);
      && PollReply(m0, 7, 300.0) == Known(Pending, 1234)
      && PollReply(PollIn(m0, 7, 300.0), 7, 301.0) == Known(Expired, 1234)
      && var m2 := MarkPaidIn(PollIn(PollIn(m0, 7, 300.0), 7, 301.0), 7, 302.0);
         PollReply(m2, 7, 10000.0) == Known(Paid, 1234)
  {
  }
}
