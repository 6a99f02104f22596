/**
  Caller allowlists and their break-glass override in both services: what startup accepts, what the
  allowlist stage admits, and what that means over a run with a clock that never goes back.

  Instants are numbers of seconds; `horizon` is the last instant the platform can represent.
 */
module BreakGlass {
  import opened Options
  import opened Text

  const U64_LIMIT: nat := 0x1_0000_0000_0000_0000

  datatype StartupError =
    | ReasonMissing | TtlMissing | TtlNotANumber | TtlZero | TtlTooLarge | AllowlistMissing

  predicate BlankOrMissing(reason: Option<string>) {
    reason.None? || Blank(reason.value)
  }

  function CheckedAdd(now: nat, seconds: nat, horizon: nat): Result<nat, StartupError> {
    if now + seconds <= horizon then Ok(now + seconds) else Err(TtlTooLarge)
  }

  // ---- Reading a u64 ----------------------------------------------------------------------

  predicate AllDigits(s: string) {
    forall i | 0 <= i < |s| :: '0' <= s[i] <= '9'
  }

  function Digits(s: string): nat
    requires AllDigits(s)
    decreases |s|
  {
    if s == [] then 0
    else
      var last := s[|s| - 1];
      10 * Digits(s[..|s| - 1]) + ((last as int) - ('0' as int))
  }

  /** An unsigned number as `str::parse` reads it: an optional plus sign, then digits, in range. */
  function ParseU64(text: string): Option<nat> {
    var digits := if "+" <= text then text[1..] else text;
    if digits == [] || !AllDigits(digits) || Digits(digits) >= U64_LIMIT then None
    else Some(Digits(digits))
  }

  /** A number in decimal. */
  function Decimal(n: nat): string {
    (if n < 10 then [] else Decimal(n / 10)) + [('0' as int + n % 10) as char]
  }

  lemma {:induction false} DigitsOfDecimal(n: nat)
    ensures AllDigits(Decimal(n)) && Digits(Decimal(n)) == n && '0' <= Decimal(n)[0] <= '9'
  {
    var front := if n < 10 then [] else Decimal(n / 10);
    var last := ('0' as int + n % 10) as char;
    if n >= 10 {
      DigitsOfDecimal(n / 10);
    }
    assert Decimal(n) == front + [last];
    assert (front + [last])[..|front|] == front;
  }

  /** The decimal text of a number is read as that number, with or without a plus sign, below 2^64. */
  lemma DecimalRoundTrip(n: nat)
    ensures ParseU64(Decimal(n)) == (if n < 0x1_0000_0000_0000_0000 then Some(n) else None)
    ensures ParseU64("+" + Decimal(n)) == ParseU64(Decimal(n))
  {
    DigitsOfDecimal(n);
    assert ("+" + Decimal(n))[1..] == Decimal(n);
    assert Decimal(n)[0] != '+';
  }

  /** Nothing else is a number: no sign but one plus, no other character, and at least one digit. */
  lemma OnlyDigitsParse(text: string)
    ensures ParseU64(text).Some? ==>
      && text != "" && text[|text| - 1] != '+'
      && forall i | 0 <= i < |text| :: '0' <= text[i] <= '9' || (i == 0 && text[i] == '+')
  {
    if ParseU64(text).Some? && "+" <= text {
      assert text[0] == '+';
      forall i | 0 < i < |text| ensures '0' <= text[i] <= '9' {
        assert text[i] == text[1..][i - 1];
      }
    }
  }

  // ---- Startup ----------------------------------------------------------------------------

  datatype GatewaySettings = GatewaySettings(
    production: bool, allowedAzp: seq<string>, allowOpen: bool, reason: Option<string>, ttl: Option<string>)

  /** The deadline the gateway stores when it accepts its settings. */
  function EnsureAzpAllowlist(s: GatewaySettings, now: nat, horizon: nat): Result<Option<nat>, StartupError> {
    if s.allowOpen then
      if BlankOrMissing(s.reason) then Err(ReasonMissing)
      else if s.ttl.None? then Err(TtlMissing)
      else
        match ParseU64(s.ttl.value)
        case None => Err(TtlNotANumber)
        case Some(ttl) =>
          if ttl == 0 then Err(TtlZero)
          else
            match CheckedAdd(now, ttl, horizon)
            case Err(e) => Err(e)
            case Ok(deadline) => Ok(Some(deadline))
    else if s.production && s.allowedAzp == [] then Err(AllowlistMissing)
    else Ok(None)
  }

  /** What the gateway starts with, the deadline it then stores, and why it does not start otherwise. */
  lemma GatewayStartsExactly(s: GatewaySettings, now: nat, horizon: nat)
    ensures var r := EnsureAzpAllowlist(s, now, horizon);
      var stated := s.reason.Some? && Trim(s.reason.value) != "";
      var ttl := if s.ttl.Some? then ParseU64(s.ttl.value) else None;
      if !s.allowOpen then r == if s.production && s.allowedAzp == [] then Err(AllowlistMissing) else Ok(None)
      else if !stated then r == Err(ReasonMissing)
      else if s.ttl.None? then r == Err(TtlMissing)
      else if ttl.None? then r == Err(TtlNotANumber)
      else if ttl == Some(0) then r == Err(TtlZero)
      else r == if now + ttl.value > horizon then Err(TtlTooLarge) else Ok(Some(now + ttl.value))
  {}

  datatype McpSettings = McpSettings(
    production: bool, allowedAzp: seq<string>, allowedClientIds: seq<string>,
    allowOpen: bool, reason: Option<string>, ttl: Option<nat>)

  function RequireCallerAllowlists(s: McpSettings): Option<StartupError> {
    if s.allowOpen && BlankOrMissing(s.reason) then Some(ReasonMissing)
    else if s.allowOpen && (s.ttl == None || s.ttl == Some(0)) then Some(TtlZero)
    else if s.production && !s.allowOpen && s.allowedAzp == [] && s.allowedClientIds == [] then Some(AllowlistMissing)
    else None
  }

  /** The deadline the MCP server stores when it accepts its settings. */
  function McpDeadline(s: McpSettings, now: nat, horizon: nat): Result<Option<nat>, StartupError> {
    match RequireCallerAllowlists(s)
    case Some(e) => Err(e)
    case None =>
      if s.ttl.None? || !s.allowOpen then Ok(None)
      else
        match CheckedAdd(now, s.ttl.value, horizon)
        case Err(e) => Err(e)
        case Ok(deadline) => Ok(Some(deadline))
  }

  lemma McpStartsExactly(s: McpSettings, now: nat, horizon: nat)
    ensures var r := McpDeadline(s, now, horizon);
      if !s.allowOpen then
        r == if s.production && s.allowedAzp == [] && s.allowedClientIds == [] then Err(AllowlistMissing) else Ok(None)
      else if s.reason.None? || Trim(s.reason.value) == "" then r == Err(ReasonMissing)
      else if s.ttl.None? || s.ttl == Some(0) then r == Err(TtlZero)
      else r == if now + s.ttl.value > horizon then Err(TtlTooLarge) else Ok(Some(now + s.ttl.value))
  {}

  // ---- The allowlist stage ----------------------------------------------------------------

  /** What the token says about its caller: the authenticator's `azp` and the `client_id` claim. */
  datatype Caller = Caller(azp: Option<string>, clientIdClaim: Option<string>)

  datatype Admission = Admitted | Expired | AzpRefused | ClientIdRefused

  function OrElse(a: Option<string>, b: Option<string>): Option<string> {
    if a.Some? then a else b
  }

  predicate Listed(list: seq<string>, value: Option<string>) {
    value.Some? && value.value in list
  }

  predicate Past(deadline: Option<nat>, now: nat) {
    deadline.Some? && now >= deadline.value
  }

  function GatewayAdmission(s: GatewaySettings, deadline: Option<nat>, now: nat, c: Caller): Admission {
    if s.allowedAzp == [] && Past(deadline, now) then Expired
    else if s.allowedAzp != [] && !Listed(s.allowedAzp, OrElse(c.azp, c.clientIdClaim)) then AzpRefused
    else Admitted
  }

  function McpAdmission(s: McpSettings, deadline: Option<nat>, now: nat, c: Caller): Admission {
    var azp := OrElse(c.azp, c.clientIdClaim);
    if s.allowedAzp == [] && s.allowedClientIds == [] && Past(deadline, now) then Expired
    else if s.allowedAzp != [] && !Listed(s.allowedAzp, azp) then AzpRefused
    else if s.allowedClientIds != [] && !Listed(s.allowedClientIds, OrElse(c.clientIdClaim, azp)) then ClientIdRefused
    else Admitted
  }

  /** Which refusal a caller gets: the deadline counts only without a list, and `azp` is looked at first. */
  lemma RefusalsExactly(g: GatewaySettings, m: McpSettings, deadline: Option<nat>, now: nat, c: Caller)
    ensures var azp := if c.azp.Some? then c.azp else c.clientIdClaim;
      GatewayAdmission(g, deadline, now, c)
        == if g.allowedAzp == [] then if deadline.Some? && deadline.value <= now then Expired else Admitted
           else if azp.Some? && azp.value in g.allowedAzp then Admitted else AzpRefused
    ensures var azp := if c.azp.Some? then c.azp else c.clientIdClaim;
      var client := if c.clientIdClaim.Some? then c.clientIdClaim else c.azp;
      McpAdmission(m, deadline, now, c)
        == if m.allowedAzp == [] && m.allowedClientIds == []
           then if deadline.Some? && deadline.value <= now then Expired else Admitted
           else if m.allowedAzp != [] && !(azp.Some? && azp.value in m.allowedAzp) then AzpRefused
           else if m.allowedClientIds != [] && !(client.Some? && client.value in m.allowedClientIds) then ClientIdRefused
           else Admitted
  {}

  // ---- Runs -------------------------------------------------------------------------------

  /** A request reaching the allowlist stage at time `at`. */
  datatype Arrival = Arrival(at: nat, caller: Caller)

  /** Requests after startup, with a clock that never goes back. */
  ghost predicate IsRun(start: nat, run: seq<Arrival>) {
    && (forall i | 0 <= i < |run| :: start <= run[i].at)
    && (forall i, j | 0 <= i <= j < |run| :: run[i].at <= run[j].at)
  }

  /** The gateway's break-glass override is stated, with a reason and a positive TTL not yet over. */
  predicate GatewayOverride(s: GatewaySettings, start: nat, now: nat) {
    && s.allowedAzp == [] && s.allowOpen && s.reason.Some? && Trim(s.reason.value) != ""
    && s.ttl.Some? && ParseU64(s.ttl.value).Some?
    && 0 < ParseU64(s.ttl.value).value
    && now < start + ParseU64(s.ttl.value).value
  }

  predicate McpOverride(s: McpSettings, start: nat, now: nat) {
    && s.allowedAzp == [] && s.allowedClientIds == [] && s.allowOpen && s.reason.Some? && Trim(s.reason.value) != ""
    && s.ttl.Some? && 0 < s.ttl.value
    && now < start + s.ttl.value
  }

  /**
    In production the gateway admits exactly the listed callers, or, with no list, everyone until
    the override's TTL has run.
   */
  lemma GatewayAdmitsExactly(s: GatewaySettings, start: nat, horizon: nat, run: seq<Arrival>, i: nat)
    requires s.production && EnsureAzpAllowlist(s, start, horizon).Ok?
    requires IsRun(start, run) && i < |run|
    ensures var deadline := EnsureAzpAllowlist(s, start, horizon).value;
      GatewayAdmission(s, deadline, run[i].at, run[i].caller).Admitted? <==>
        || (s.allowedAzp != [] && Listed(s.allowedAzp, OrElse(run[i].caller.azp, run[i].caller.clientIdClaim)))
        || GatewayOverride(s, start, run[i].at)
  {
    if s.allowOpen {
      assert ParseU64(s.ttl.value).Some?;
    }
  }

  /** The caller is on every list that has entries; the two identities fall back on each other. */
  predicate McpListed(s: McpSettings, c: Caller) {
    var azp := OrElse(c.azp, c.clientIdClaim);
    && (s.allowedAzp != [] || s.allowedClientIds != [])
    && (s.allowedAzp != [] ==> Listed(s.allowedAzp, azp))
    && (s.allowedClientIds != [] ==> Listed(s.allowedClientIds, OrElse(c.clientIdClaim, azp)))
  }

  lemma McpAdmitsExactly(s: McpSettings, start: nat, horizon: nat, run: seq<Arrival>, i: nat)
    requires s.production && McpDeadline(s, start, horizon).Ok?
    requires IsRun(start, run) && i < |run|
    ensures var deadline := McpDeadline(s, start, horizon).value;
      McpAdmission(s, deadline, run[i].at, run[i].caller).Admitted? <==>
        McpListed(s, run[i].caller) || McpOverride(s, start, run[i].at)
  {
    var deadline := McpDeadline(s, start, horizon).value;
    if s.allowOpen {
      assert deadline == Some(start + s.ttl.value);
    }
  }

  /** Once a request is turned away for expiry, every later request is, whoever sends it. */
  lemma ExpiryIsFinal(gateway: GatewaySettings, mcp: McpSettings, deadline: Option<nat>, start: nat,
                      run: seq<Arrival>, i: nat, j: nat)
    requires IsRun(start, run) && i <= j < |run|
    ensures GatewayAdmission(gateway, deadline, run[i].at, run[i].caller).Expired?
      ==> GatewayAdmission(gateway, deadline, run[j].at, run[j].caller).Expired?
    ensures McpAdmission(mcp, deadline, run[i].at, run[i].caller).Expired?
      ==> McpAdmission(mcp, deadline, run[j].at, run[j].caller).Expired?
  {
    assert run[i].at <= run[j].at;
  }

  function GatewayStage(s: GatewaySettings, deadline: Option<nat>): Arrival -> Admission {
    (a: Arrival) => GatewayAdmission(s, deadline, a.at, a.caller)
  }

  function McpStage(s: McpSettings, deadline: Option<nat>): Arrival -> Admission {
    (a: Arrival) => McpAdmission(s, deadline, a.at, a.caller)
  }

  function Serve(admit: Arrival -> Admission, run: seq<Arrival>): seq<Admission> {
    seq(|run|, i requires 0 <= i < |run| => admit(run[i]))
  }

  /** Everything before `k` is admitted and everything from `k` on is turned away for expiry. */
  ghost predicate ClosesAt(outcomes: seq<Admission>, k: nat) {
    && k <= |outcomes|
    && (forall i | 0 <= i < k :: outcomes[i].Admitted?)
    && (forall i | k <= i < |outcomes| :: outcomes[i].Expired?)
  }

  lemma {:induction false} DeadlineSplitsRun(admit: Arrival -> Admission, start: nat, deadline: nat, run: seq<Arrival>)
    returns (k: nat)
    requires IsRun(start, run)
    requires forall a :: admit(a) == if a.at < deadline then Admitted else Expired
    ensures k <= |run| && ClosesAt(Serve(admit, run), k)
    ensures forall i | 0 <= i < |run| :: i < k <==> run[i].at < deadline
    decreases |run|
  {
    if run == [] {
      k := 0;
    } else if run[0].at < deadline {
      k := DeadlineSplitsRun(admit, start, deadline, run[1..]);
      k := k + 1;
      assert Serve(admit, run) == [admit(run[0])] + Serve(admit, run[1..]);
      assert forall i | 0 < i < |run| :: run[i] == run[1..][i - 1];
    } else {
      k := 0;
    }
  }

  /**
    An open service in production has a deadline, a positive whole number of seconds after startup:
    a run is a stretch in which every caller is admitted and then a stretch in which none is.
   */
  lemma OpenGatewayCloses(s: GatewaySettings, start: nat, horizon: nat, run: seq<Arrival>) returns (k: nat)
    requires s.production && s.allowedAzp == [] && EnsureAzpAllowlist(s, start, horizon).Ok?
    requires IsRun(start, run)
    ensures s.ttl.Some? && ParseU64(s.ttl.value).Some? && 0 < ParseU64(s.ttl.value).value
    ensures var deadline := EnsureAzpAllowlist(s, start, horizon).value;
      ClosesAt(Serve(GatewayStage(s, deadline), run), k)
    ensures k <= |run|
    ensures forall i | 0 <= i < |run| :: i < k <==> run[i].at < start + ParseU64(s.ttl.value).value
  {
    assert ParseU64(s.ttl.value).Some?;
    var deadline := EnsureAzpAllowlist(s, start, horizon).value;
    k := DeadlineSplitsRun(GatewayStage(s, deadline), start, deadline.value, run);
  }

  lemma OpenMcpCloses(s: McpSettings, start: nat, horizon: nat, run: seq<Arrival>) returns (k: nat)
    requires s.production && s.allowedAzp == [] && s.allowedClientIds == []
    requires McpDeadline(s, start, horizon).Ok?
    requires IsRun(start, run)
    ensures s.ttl.Some? && 0 < s.ttl.value
    ensures var deadline := McpDeadline(s, start, horizon).value;
      ClosesAt(Serve(McpStage(s, deadline), run), k)
    ensures k <= |run|
    ensures forall i | 0 <= i < |run| :: i < k <==> run[i].at < start + s.ttl.value
  {
    var deadline := McpDeadline(s, start, horizon).value;
    assert deadline == Some(start + s.ttl.value);
    k := DeadlineSplitsRun(McpStage(s, deadline), start, deadline.value, run);
  }

  /** Outside production an empty list with no override leaves the gateway open without end. */
  lemma UnguardedOutsideProduction(s: GatewaySettings, start: nat, horizon: nat, at: nat, c: Caller)
    requires s.allowedAzp == [] && EnsureAzpAllowlist(s, start, horizon).Ok?
    ensures var deadline := EnsureAzpAllowlist(s, start, horizon).value;
      deadline.None? <==> !s.allowOpen
    ensures !s.allowOpen ==> !s.production
    ensures !s.allowOpen ==> GatewayAdmission(s, EnsureAzpAllowlist(s, start, horizon).value, at, c).Admitted?
  {}
}
