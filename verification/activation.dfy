/** The licence activation page: activating with a name and a key starts a
    one-year licence, deactivating forgets it, and a once-a-second timer turns
    the time left into "N días, H horas" or expires the licence. Times are
    milliseconds since the epoch; the clock reading is a parameter. */
module Activation {
  import opened Text
  import opened Listing

  /** `1000 * 60 * 60` and `1000 * 60 * 60 * 24`. */
  const HourMs: nat := 3_600_000
  const DayMs: nat := 86_400_000

  /** `expiry.setDate(expiry.getDate() + 365)`. */
  const LicenseDays: nat := 365

  const ExpiredText: string := "Licencia expirada"

  /** The page's state: the two inputs, the activated flag, the expiry date
      (`None` for `null`) and the text of "Tiempo restante". */
  datatype LicenseState = LicenseState(
    name: string, key: string, activated: bool, expiry: Option<int>, remaining: string)

  /** The state the page starts in and returns to on deactivation. */
  const Initial: LicenseState := LicenseState("", "", false, None, "")

  datatype ActivationNotice = MissingFields | Activated

  /** The name input; it is disabled while the licence is active. */
  function EditName(s: LicenseState, typed: string): (r: LicenseState)
    ensures s.activated ==> r == s
    ensures !s.activated ==> r.name == typed && r == s.(name := r.name)
  {
    if s.activated then s else s.(name := typed)
  }

  /** The key input; it is disabled while the licence is active. */
  function EditKey(s: LicenseState, typed: string): (r: LicenseState)
    ensures s.activated ==> r == s
    ensures !s.activated ==> r.key == typed && r == s.(key := r.key)
  {
    if s.activated then s else s.(key := typed)
  }

  /** `handleActivate` at clock reading `now`: without a name or a key the
      page only complains; otherwise the licence is active until a year from now. */
  function Activate(s: LicenseState, now: int): (r: (LicenseState, ActivationNotice))
    ensures r.1 == Activated <==> s.name != "" && s.key != ""
    ensures r.1 == MissingFields ==> r.0 == s
    ensures r.1 == Activated ==>
              && r.0.activated
              && r.0.expiry == Some(now + LicenseDays * DayMs)
              && r.0.name == s.name && r.0.key == s.key && r.0.remaining == s.remaining
  {
    if s.name == "" || s.key == "" then (s, MissingFields)
    else (s.(activated := true, expiry := Some(now + LicenseDays * DayMs)), Activated)
  }

  /** `handleDeactivate`: every field goes back to its initial value. */
  function Deactivate(s: LicenseState): (r: LicenseState)
    ensures !r.activated && r.expiry.None?
    ensures r.name == "" && r.key == "" && r.remaining == ""
  {
    Initial
  }

  /** Whole days and the whole hours left over, of a positive number of
      milliseconds: `Math.floor(diff / day)` and `Math.floor((diff % day) / hour)`. */
  function Countdown(diff: int): (r: (nat, nat))
    requires diff > 0
    ensures r.1 < 24
    ensures r.0 * DayMs + r.1 * HourMs <= diff < r.0 * DayMs + (r.1 + 1) * HourMs
  {
    (diff / DayMs, (diff % DayMs) / HourMs)
  }

  /** The countdown is the only day/hour pair that brackets `diff` that way. */
  lemma CountdownUnique(diff: int, days: nat, hours: nat)
    requires diff > 0
    requires hours < 24
    requires days * DayMs + hours * HourMs <= diff < days * DayMs + (hours + 1) * HourMs
    ensures Countdown(diff) == (days, hours)
  {
    var d := diff / DayMs;
    var rest := diff % DayMs;
    assert diff == d * 86_400_000 + rest && 0 <= rest < 86_400_000;
    assert days * 86_400_000 <= diff < days * 86_400_000 + 86_400_000;
    assert d == days;
    assert hours * 3_600_000 <= rest < hours * 3_600_000 + 3_600_000;
  }

  function RemainingText(days: nat, hours: nat): string
  {
    NatToString(days) + " días, " + NatToString(hours) + " horas"
  }

  /** One timer tick at clock reading `now`. Without an expiry date there is
      no timer. Once the expiry is reached the licence is shown as expired and
      deactivated; before that the time left is written out. */
  function Tick(s: LicenseState, now: int): (r: LicenseState)
    ensures s.expiry.None? ==> r == s
    ensures r.name == s.name && r.key == s.key && r.expiry == s.expiry
    ensures s.expiry.Some? && s.expiry.value <= now ==> !r.activated && r.remaining == ExpiredText
    ensures s.expiry.Some? && now < s.expiry.value ==>
              && r.activated == s.activated
              && r.remaining == RemainingText(Countdown(s.expiry.value - now).0, Countdown(s.expiry.value - now).1)
  {
    match s.expiry
    case None => s
    case Some(expiry) =>
      var diff := expiry - now;
      if diff <= 0 then s.(remaining := ExpiredText, activated := false)
      else
        var (days, hours) := Countdown(diff);
        s.(remaining := RemainingText(days, hours))
  }

  /** A second tick at the same instant changes nothing. */
  lemma TickIdempotent(s: LicenseState, now: int)
    ensures Tick(Tick(s, now), now) == Tick(s, now)
  {
  }

  /** An activated licence stays active on every tick before its year is up
      and is expired by the first tick at or after that. */
  lemma LicenseLastsOneYear(s: LicenseState, now: int, elapsed: int)
    requires s.name != "" && s.key != ""
    ensures Tick(Activate(s, now).0, now + elapsed).activated <==> elapsed < LicenseDays * DayMs
    ensures elapsed >= LicenseDays * DayMs ==> Tick(Activate(s, now).0, now + elapsed).remaining == ExpiredText
  {
  }

  /** The interval first fires at least a second after activating, so the
      full "365 días, 0 horas" is never shown: every tick within the first
      hour shows "364 días, 23 horas". */
  lemma FirstTicksShow364Days(s: LicenseState, now: int, elapsed: int)
    requires s.name != "" && s.key != ""
    requires 0 < elapsed <= HourMs
    ensures Tick(Activate(s, now).0, now + elapsed).remaining == "364 días, 23 horas"
  {
    var diff := LicenseDays * DayMs - elapsed;
    assert Activate(s, now).0.expiry.value - (now + elapsed) == diff;
    CountdownUnique(diff, 364, 23);
    RemainingText364Days23Hours();
  }

  lemma RemainingText364Days23Hours()
    ensures RemainingText(364, 23) == "364 días, 23 horas"
  {
    assert NatToString(364) == "364" by {
      assert NatToString(3) == "3";
      assert NatToString(36) == NatToString(3) + [DigitChar(6)];
    }
    assert NatToString(23) == "23" by {
      assert NatToString(2) == "2";
    }
  }

  /** After deactivating, the licence cannot be activated again until a name
      and a key are typed anew. */
  lemma DeactivatedNeedsNewEntries(s: LicenseState, now: int)
    ensures Activate(Deactivate(s), now) == (Initial, MissingFields)
  {
  }

  /** An expired licence can be activated again with the name and key it kept,
      which starts a new year from that moment. */
  lemma ExpiredLicenseCanBeRenewed(s: LicenseState, now: int, later: int)
    requires s.name != "" && s.key != ""
    requires later >= now + LicenseDays * DayMs
    ensures var expired := Tick(Activate(s, now).0, later);
            && !expired.activated
            && Activate(expired, later).1 == Activated
            && Activate(expired, later).0.expiry == Some(later + LicenseDays * DayMs)
  {
  }
}
