/** policy/engine.py: the verdict on a binding commitment. */
module Policy {
  import opened Base
  import opened Models

  /** The check either passes, gives a reason to refuse, or raises (an hour such as 25:00). */
  datatype Verdict = Allowed | Denied(reason: string) | Raises

  const MICROS_PER_MINUTE := 60_000_000

  /** `datetime.time(hour, minute)` accepts only these. */
  predicate WellFormedHour(h: (nat, nat)) {
    h.0 < 24 && h.1 < 60
  }

  function MicrosOf(h: (nat, nat)): nat {
    (h.0 * 60 + h.1) * MICROS_PER_MINUTE
  }

  predicate WellFormed(c: Constraint) {
    (c.earliest.Some? ==> WellFormedHour(c.earliest.value)) && (c.latest.Some? ==> WellFormedHour(c.latest.value))
  }

  /** What a single constraint says about an appointment: neither before the earliest hour, nor after
      the latest, nor on a closed day. */
  predicate Permits(c: Constraint, at: Moment) {
    && (c.earliest.Some? ==> c.earliest.value.0 * 3_600_000_000 + c.earliest.value.1 * 60_000_000 <= at.micros)
    && (c.latest.Some? ==> at.micros <= c.latest.value.0 * 3_600_000_000 + c.latest.value.1 * 60_000_000)
    && at.weekday !in c.closedDays
  }

  /** The verdict of one constraint, in the order of the tests: earliest, latest, weekday. */
  function Test(c: Constraint, at: Moment): Verdict {
    if c.earliest.Some? && !WellFormedHour(c.earliest.value) then Raises
    else if c.earliest.Some? && at.micros < MicrosOf(c.earliest.value) then Denied("before_allowed_time")
    else if c.latest.Some? && !WellFormedHour(c.latest.value) then Raises
    else if c.latest.Some? && at.micros > MicrosOf(c.latest.value) then Denied("after_allowed_time")
    else if at.weekday in c.closedDays then Denied("weekday_not_allowed")
    else Allowed
  }

  /** The first constraint that does not pass decides. */
  function TestAll(constraints: seq<Constraint>, at: Moment): Verdict {
    if constraints == [] then Allowed
    else
      var first := Test(constraints[0], at);
      if first.Allowed? then TestAll(constraints[1..], at) else first
  }

  predicate Truthy(j: Json) {
    match j
    case Str(s, _) => s != ""
    case Raw(_, truthy) => truthy
  }

  /** `payload.get("datetime") or payload.get("appointment_at")` */
  function AppointmentField(payload: Fields): Option<Json> {
    if "datetime" in payload && Truthy(payload["datetime"]) then Some(payload["datetime"])
    else if "appointment_at" in payload then Some(payload["appointment_at"])
    else None
  }

  predicate ContainsCost(payload: Fields) {
    "cost" in payload || "price" in payload || "amount" in payload || "fee" in payload
  }

  function CheckAppointment(constraints: seq<Constraint>, payload: Fields): Verdict {
    var field := AppointmentField(payload);
    if field.None? || !field.value.Str? then Denied("appointment_datetime_missing")
    else if field.value.moment.None? then Denied("appointment_datetime_invalid")
    else TestAll(constraints, field.value.moment.value)
  }

  predicate IsAppointment(action: string) {
    action == "book_appointment" || action == "accept_appointment"
  }

  /** `authorize_commit` */
  function Decide(permissions: Permissions, constraints: seq<Constraint>, action: string, payload: Fields): Verdict {
    if !permissions.mayCommit then Denied("commit_permission_missing")
    else if ContainsCost(payload) && !permissions.mayAcceptCosts then Denied("cost_not_authorized")
    else if IsAppointment(action) then CheckAppointment(constraints, payload)
    else Allowed
  }

  // ---- What the verdict means ----

  /** An appointment is allowed exactly when each constraint by itself allows it. */
  lemma {:induction false} AllowedIffEachAllows(constraints: seq<Constraint>, at: Moment)
    ensures TestAll(constraints, at).Allowed? <==> forall c <- constraints :: Test(c, at).Allowed?
  {
    if constraints != [] {
      var first, rest := constraints[0], constraints[1..];
      assert forall c :: c in constraints <==> c == first || c in rest;
      AllowedIffEachAllows(rest, at);
    }
  }

  /** With well-formed hours the check never raises, and the appointment is allowed exactly when
      every constraint permits it. */
  lemma {:induction false} AllowedIsConjunction(constraints: seq<Constraint>, at: Moment)
    requires forall c <- constraints :: WellFormed(c)
    ensures TestAll(constraints, at).Allowed? <==> forall c <- constraints :: Permits(c, at)
    ensures !TestAll(constraints, at).Raises?
  {
    if constraints != [] {
      var first, rest := constraints[0], constraints[1..];
      assert WellFormed(first);
      assert forall c :: c in constraints <==> c == first || c in rest;
      assert Test(first, at).Allowed? <==> Permits(first, at);
      AllowedIsConjunction(rest, at);
    }
  }

  /** Reordering the constraints never changes whether an appointment is allowed, not even when some
      of them make the check raise. */
  lemma OrderDoesNotMatter(a: seq<Constraint>, b: seq<Constraint>, at: Moment)
    requires multiset(a) == multiset(b)
    ensures TestAll(a, at).Allowed? <==> TestAll(b, at).Allowed?
  {
    forall c | c in a || c in b ensures c in a && c in b {
      assert c in multiset(a) || c in multiset(b);
    }
    AllowedIffEachAllows(a, at);
    AllowedIffEachAllows(b, at);
  }

  /** A constraint added anywhere, well-formed or not, never turns a refusal into a permission. */
  lemma {:induction false} MoreConstraintsNeverAllowMore(
    before: seq<Constraint>, c: Constraint, after: seq<Constraint>, at: Moment)
    ensures TestAll(before + [c] + after, at).Allowed? ==> TestAll(before + after, at).Allowed?
  {
    if before == [] {
      assert before + [c] + after == [c] + after && before + after == after;
      assert ([c] + after)[1..] == after;
    } else {
      MoreConstraintsNeverAllowMore(before[1..], c, after, at);
      assert (before + [c] + after)[1..] == before[1..] + [c] + after;
      assert (before + after)[1..] == before[1..] + after;
    }
  }

  // ---- The verdict in the terms of the payload ----

  /** What a payload gives as the time of an appointment: a "datetime" that is not empty wins over an
      "appointment_at". */
  ghost predicate Gives(payload: Fields, value: Json) {
    var filled := "datetime" in payload &&
      match payload["datetime"]
      case Str(s, _) => s != ""
      case Raw(_, truthy) => truthy;
    var key := if filled then "datetime" else "appointment_at";
    key in payload && payload[key] == value
  }

  ghost predicate Appoints(payload: Fields, at: Moment) {
    exists s :: Gives(payload, Str(s, Some(at)))
  }

  /** Without the permission to commit nothing is allowed, and without the permission to accept costs
      nothing that has one of the four cost keys; these are the only denials for these reasons. */
  lemma PermissionsDecideFirst(permissions: Permissions, constraints: seq<Constraint>, action: string, payload: Fields)
    ensures var verdict := Decide(permissions, constraints, action, payload);
            && (verdict == Denied("commit_permission_missing") <==> !permissions.mayCommit)
            && (verdict == Denied("cost_not_authorized") <==>
                  permissions.mayCommit && !permissions.mayAcceptCosts
                  && payload.Keys * {"cost", "price", "amount", "fee"} != {})
  {
    assert ContainsCost(payload) <==> payload.Keys * {"cost", "price", "amount", "fee"} != {} by {
      forall key | key in {"cost", "price", "amount", "fee"} && key in payload
        ensures key in payload.Keys * {"cost", "price", "amount", "fee"} {
      }
    }
    if IsAppointment(action) && AppointmentField(payload).Some? && AppointmentField(payload).value.Str?
       && AppointmentField(payload).value.moment.Some? {
      ConstraintReasons(constraints, AppointmentField(payload).value.moment.value);
    }
  }

  /** Only the constraints speak of hours and days. */
  lemma {:induction false} ConstraintReasons(constraints: seq<Constraint>, at: Moment)
    ensures TestAll(constraints, at).Denied? ==>
              TestAll(constraints, at).reason in {"before_allowed_time", "after_allowed_time", "weekday_not_allowed"}
    decreases |constraints|
  {
    if constraints != [] {
      ConstraintReasons(constraints[1..], at);
    }
  }

  /** The reason of an appointment's refusal is that of the first constraint that does not permit it:
      too early, or else too late, or else on a closed day. */
  lemma {:induction false} FirstFailureDecides(constraints: seq<Constraint>, at: Moment, i: nat)
    requires i < |constraints| && !Permits(constraints[i], at)
    requires forall j :: 0 <= j < i ==> Permits(constraints[j], at)
    requires forall j :: 0 <= j <= i ==> WellFormed(constraints[j])
    ensures var c := constraints[i];
            TestAll(constraints, at) ==
              if c.earliest.Some? && at.micros < c.earliest.value.0 * 3_600_000_000 + c.earliest.value.1 * 60_000_000
              then Denied("before_allowed_time")
              else if c.latest.Some? && at.micros > c.latest.value.0 * 3_600_000_000 + c.latest.value.1 * 60_000_000
              then Denied("after_allowed_time")
              else Denied("weekday_not_allowed")
    decreases i
  {
    if i > 0 {
      assert Permits(constraints[0], at) && WellFormed(constraints[0]);
      FirstFailureDecides(constraints[1..], at, i - 1);
    }
  }

  /** An allowed commitment has the permission, has no cost key unless costs are accepted, and, if it
      books or accepts an appointment, names an instant that every constraint permits; and conversely. */
  lemma AllowedIff(permissions: Permissions, constraints: seq<Constraint>, action: string, payload: Fields)
    requires forall c <- constraints :: WellFormed(c)
    ensures Decide(permissions, constraints, action, payload).Allowed? <==>
            && permissions.mayCommit
            && (permissions.mayAcceptCosts
                || ("cost" !in payload && "price" !in payload && "amount" !in payload && "fee" !in payload))
            && (action == "book_appointment" || action == "accept_appointment" ==>
                  exists at :: Appoints(payload, at) && forall c <- constraints :: Permits(c, at))
  {
    var field := AppointmentField(payload);
    if field.Some? && field.value.Str? && field.value.moment.Some? {
      var at := field.value.moment.value;
      assert Gives(payload, Str(field.value.s, Some(at))) && Appoints(payload, at);
      AllowedIsConjunction(constraints, at);
    }
  }

  /** An appointment is refused for a missing time exactly when none is given as a text, and for an
      invalid one exactly when the text given is no instant. */
  lemma AppointmentWithoutTime(permissions: Permissions, constraints: seq<Constraint>, payload: Fields)
    requires permissions.mayCommit && permissions.mayAcceptCosts
    ensures var verdict := Decide(permissions, constraints, "book_appointment", payload);
            && (verdict == Denied("appointment_datetime_missing") <==>
                  forall s, moment :: !Gives(payload, Str(s, moment)))
            && (verdict == Denied("appointment_datetime_invalid") <==> exists s :: Gives(payload, Str(s, None)))
  {
    var field := AppointmentField(payload);
    if field.Some? && field.value.Str? {
      assert Gives(payload, Str(field.value.s, field.value.moment));
      if field.value.moment.Some? {
        ConstraintReasons(constraints, field.value.moment.value);
      }
    }
  }

  // ---- The loops of `_check_appointment_constraints` ----

  /** The early-exit loops, the inner one over the weekday table. */
  method CheckAppointmentConstraints(constraints: seq<Constraint>, payload: Fields) returns (verdict: Verdict)
    ensures verdict == CheckAppointment(constraints, payload)
  {
    var field := AppointmentField(payload);
    if field.None? || !field.value.Str? {
      return Denied("appointment_datetime_missing");
    }
    if field.value.moment.None? {
      return Denied("appointment_datetime_invalid");
    }
    var at := field.value.moment.value;
    for i := 0 to |constraints|
      invariant TestAll(constraints[i..], at) == TestAll(constraints, at)
    {
      var c := constraints[i];
      assert constraints[i..][0] == c && constraints[i..][1..] == constraints[i + 1..];
      if c.earliest.Some? {
        if !WellFormedHour(c.earliest.value) {
          return Raises;
        }
        if at.micros < MicrosOf(c.earliest.value) {
          return Denied("before_allowed_time");
        }
      }
      if c.latest.Some? {
        if !WellFormedHour(c.latest.value) {
          return Raises;
        }
        if at.micros > MicrosOf(c.latest.value) {
          return Denied("after_allowed_time");
        }
      }
      for day := 0 to 7
        invariant at.weekday in c.closedDays ==> day <= at.weekday
      {
        if day in c.closedDays && at.weekday == day {
          return Denied("weekday_not_allowed");
        }
      }
    }
    return Allowed;
  }
}
