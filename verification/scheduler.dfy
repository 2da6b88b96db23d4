/** One reminder pass: walk the tracked products in order and, for each one
    whose reminder is due today and whose chosen channel has a contact
    address, hand one notification to the notifier. */
module Scheduler {
  import opened Common
  import opened Expiry
  import opened Evaluator

  /** How the runtime turns an expiry-date string into milliseconds
      (`new Date(s).getTime()`); `None` stands for NaN. */
  type DateParser = string -> Option<int>

  /** A tracked product as the scheduler sees it, with optional contacts. */
  datatype Product = Product(
    id: int,
    name: string,
    expiryDate: string,
    notificationType: Channel,
    frequency: string,
    userEmail: Option<string>,
    userPhone: Option<string>)

  /** What the notifier receives about one product. */
  datatype NotificationData = NotificationData(
    productName: string,
    expiryDate: string,
    daysLeft: int,
    userEmail: Option<string>,
    userPhone: Option<string>)

  /** One call to the email or the SMS sender. */
  datatype Dispatch = Dispatch(channel: Channel, data: NotificationData)

  /** How one sender call ended: it resolved true, it resolved false (the real
      senders swallow their own errors and return false), or it threw. */
  datatype SendOutcome = Sent | Failed | Threw

  /** A dispatch together with how the notifier answered it. */
  datatype Attempt = Attempt(dispatch: Dispatch, outcome: SendOutcome)

  /** Days left for a product at time `nowMs`. */
  function DaysLeft(nowMs: int, parse: DateParser, p: Product): DayCount
  {
    DaysUntilExpiry(nowMs, parse(p.expiryDate))
  }

  /** The evaluator's verdict for a product at time `nowMs`. */
  predicate Due(nowMs: int, parse: DateParser, p: Product)
  {
    ShouldSendNotification(DaysLeft(nowMs, parse, p), p.frequency)
  }

  /** The contact field that matches the product's channel. */
  function ContactFor(p: Product): Option<string>
  {
    match p.notificationType
    case Email => p.userEmail
    case Sms => p.userPhone
  }

  /** Due and reachable over the chosen channel. */
  predicate Eligible(nowMs: int, parse: DateParser, p: Product)
  {
    Due(nowMs, parse, p) && Present(ContactFor(p))
  }

  /** A dispatch only goes out over a channel whose contact is present in its payload. */
  predicate Gated(d: Dispatch)
  {
    && (d.channel == Email ==> Present(d.data.userEmail))
    && (d.channel == Sms ==> Present(d.data.userPhone))
  }

  /** The body of the pass for one product: at most one dispatch. */
  function Evaluate(nowMs: int, parse: DateParser, p: Product): (r: Option<Dispatch>)
    ensures r.Some? <==> Eligible(nowMs, parse, p)
    ensures r.Some? ==> Gated(r.value) && r.value.channel == p.notificationType
    ensures r.Some? ==>
              && r.value.data.productName == p.name
              && r.value.data.expiryDate == p.expiryDate
              && Days(r.value.data.daysLeft) == DaysLeft(nowMs, parse, p)
              && r.value.data.userEmail == p.userEmail
              && r.value.data.userPhone == p.userPhone
  {
    var days := DaysLeft(nowMs, parse, p);
    if ShouldSendNotification(days, p.frequency) then
      var data := NotificationData(p.name, p.expiryDate, days.n, p.userEmail, p.userPhone);
      if p.notificationType == Email && Present(p.userEmail) then Some(Dispatch(Email, data))
      else if p.notificationType == Sms && Present(p.userPhone) then Some(Dispatch(Sms, data))
      else None
    else None
  }

  /** Number of products in `ps` that are eligible at `nowMs`. */
  function CountEligible(nowMs: int, parse: DateParser, ps: seq<Product>): nat
  {
    if |ps| == 0 then 0
    else (if Eligible(nowMs, parse, ps[0]) then 1 else 0) + CountEligible(nowMs, parse, ps[1..])
  }

  /** The dispatches a single verdict issues: none or one. */
  function Issued(verdict: Option<Dispatch>): seq<Dispatch>
  {
    match verdict
    case Some(d) => [d]
    case None => []
  }

  /** The dispatches of one pass at time `nowMs`, in list order. */
  function Pass(nowMs: int, parse: DateParser, ps: seq<Product>): (r: seq<Dispatch>)
    ensures |r| == CountEligible(nowMs, parse, ps) <= |ps|
    ensures forall k :: 0 <= k < |r| ==> Gated(r[k])
  {
    if |ps| == 0 then []
    else Issued(Evaluate(nowMs, parse, ps[0])) + Pass(nowMs, parse, ps[1..])
  }

  /** The dispatches recorded in a log, in order. */
  function Dispatched(log: seq<Attempt>): (r: seq<Dispatch>)
    ensures |r| == |log|
    ensures forall k :: 0 <= k < |log| ==> r[k] == log[k].dispatch
  {
    seq(|log|, k requires 0 <= k < |log| => log[k].dispatch)
  }

  /** A non-empty list's pass starts with its first product's verdict. */
  lemma PassCons(nowMs: int, parse: DateParser, ps: seq<Product>)
    requires |ps| > 0
    ensures Pass(nowMs, parse, ps) == Issued(Evaluate(nowMs, parse, ps[0])) + Pass(nowMs, parse, ps[1..])
  {
  }

  /** A pass over a concatenation is the concatenation of the passes: dispatches
      follow list order. */
  lemma {:induction false} PassAppend(nowMs: int, parse: DateParser, a: seq<Product>, b: seq<Product>)
    ensures Pass(nowMs, parse, a + b) == Pass(nowMs, parse, a) + Pass(nowMs, parse, b)
  {
    if |a| == 0 {
      assert a + b == b;
    } else {
      assert (a + b)[0] == a[0];
      assert (a + b)[1..] == a[1..] + b;
      PassCons(nowMs, parse, a + b);
      PassCons(nowMs, parse, a);
      PassAppend(nowMs, parse, a[1..], b);
      ConcatAssoc(Issued(Evaluate(nowMs, parse, a[0])), Pass(nowMs, parse, a[1..]), Pass(nowMs, parse, b));
    }
  }

  /** One product yields exactly its own verdict: one dispatch if eligible, none otherwise. */
  lemma PassSingle(nowMs: int, parse: DateParser, p: Product)
    ensures Pass(nowMs, parse, [p]) ==
              (if Eligible(nowMs, parse, p) then [Evaluate(nowMs, parse, p).value] else [])
  {
    assert [p][1..] == [];
  }

  /** Every dispatch of a pass is the verdict on some product of the list. */
  lemma {:induction false} PassProvenance(nowMs: int, parse: DateParser, ps: seq<Product>, d: Dispatch)
    requires d in Pass(nowMs, parse, ps)
    ensures exists p :: p in ps && Evaluate(nowMs, parse, p) == Some(d)
  {
    if |ps| > 0 {
      if Evaluate(nowMs, parse, ps[0]) == Some(d) {
        assert ps[0] in ps;
      } else {
        PassProvenance(nowMs, parse, ps[1..], d);
        var p :| p in ps[1..] && Evaluate(nowMs, parse, p) == Some(d);
        assert p in ps;
      }
    }
  }

  /** Every eligible product of the list gets its dispatch in the pass. */
  lemma {:induction false} PassComplete(nowMs: int, parse: DateParser, ps: seq<Product>, p: Product)
    requires p in ps && Eligible(nowMs, parse, p)
    ensures Evaluate(nowMs, parse, p).value in Pass(nowMs, parse, ps)
  {
    if ps[0] != p {
      assert p in ps[1..];
      PassComplete(nowMs, parse, ps[1..], p);
    }
  }

  /** A due product whose channel lacks its contact produces no dispatch. */
  lemma MissingContactSilences(nowMs: int, parse: DateParser, p: Product)
    requires Due(nowMs, parse, p) && !Present(ContactFor(p))
    ensures Pass(nowMs, parse, [p]) == []
  {
    PassSingle(nowMs, parse, p);
  }

  /** Extending the list by one product extends the pass by that product's verdict. */
  lemma PassSnoc(nowMs: int, parse: DateParser, ps: seq<Product>, i: int)
    requires 0 <= i < |ps|
    ensures Pass(nowMs, parse, ps[..i + 1]) == Pass(nowMs, parse, ps[..i]) + Issued(Evaluate(nowMs, parse, ps[i]))
  {
    assert ps[..i + 1] == ps[..i] + [ps[i]];
    PassAppend(nowMs, parse, ps[..i], [ps[i]]);
    assert [ps[i]][1..] == [];
  }

  /** Logging one more attempt logs one more dispatch. */
  lemma DispatchedSnoc(log: seq<Attempt>, a: Attempt)
    ensures Dispatched(log + [a]) == Dispatched(log) + [a.dispatch]
  {
  }

  /** Every logged outcome is the notifier's answer to that call, the k-th
      call being made with position k. */
  predicate Answered(log: seq<Attempt>, send: (nat, Dispatch) -> SendOutcome)
  {
    forall k :: 0 <= k < |log| ==> log[k].outcome == send(k, log[k].dispatch)
  }

  /** Logging the answer to the next call keeps every answer faithful. */
  lemma AnsweredSnoc(log: seq<Attempt>, send: (nat, Dispatch) -> SendOutcome, d: Dispatch)
    requires Answered(log, send)
    ensures Answered(log + [Attempt(d, send(|log|, d))], send)
  {
    var next := log + [Attempt(d, send(|log|, d))];
    forall k | 0 <= k < |next|
      ensures next[k].outcome == send(k, next[k].dispatch)
    {
      if k < |log| {
        assert next[k] == log[k];
      }
    }
  }

  /** `checkExpiryAndNotify`: the sequential pass, calling `send` for each
      dispatch. The notifier sees the call's position as well as the payload,
      so the same payload may be answered differently on different calls (a
      send that fails once and succeeds later). Whatever a call returns or
      throws is caught and the loop moves on, so the dispatches issued do not
      depend on the notifier at all. */
  method CheckExpiryAndNotify(nowMs: int, parse: DateParser, products: seq<Product>, send: (nat, Dispatch) -> SendOutcome)
    returns (log: seq<Attempt>)
    ensures Dispatched(log) == Pass(nowMs, parse, products)
    ensures |log| == CountEligible(nowMs, parse, products)
    ensures forall k :: 0 <= k < |log| ==> log[k].outcome == send(k, log[k].dispatch)
  {
    log := [];
    var i := 0;
    while i < |products|
      invariant 0 <= i <= |products|
      invariant Dispatched(log) == Pass(nowMs, parse, products[..i])
      invariant Answered(log, send)
    {
      var verdict := Evaluate(nowMs, parse, products[i]);
      PassSnoc(nowMs, parse, products, i);
      if verdict.Some? {
        var outcome := send(|log|, verdict.value);
        var attempt := Attempt(verdict.value, outcome);
        DispatchedSnoc(log, attempt);
        AnsweredSnoc(log, send, verdict.value);
        log := log + [attempt];
      } else {
        assert Pass(nowMs, parse, products[..i]) + [] == Pass(nowMs, parse, products[..i]);
      }
      i := i + 1;
    }
    assert products[..i] == products;
    assert |log| == |Dispatched(log)|;
  }
}
