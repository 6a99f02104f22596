/** The bulk operations on clients: updating a list of entries, and pruning what a filter selects. */
module BulkUpdate {
  import opened Options
  import opened Sequences
  import opened Text

  // ---- Entries ----------------------------------------------------------------------------

  datatype Field =
    | Name | Description | Enabled | PublicClient | ServiceAccountsEnabled | StandardFlowEnabled
    | DirectAccessGrantsEnabled | ConsentRequired | BearerOnly

  datatype Value = Words(text: string) | Flag(on: bool)

  type Body = map<Field, Value>

  datatype Entry = Entry(
    id: Option<string>, clientId: Option<string>,
    name: Option<string>, description: Option<string>,
    enabled: Option<bool>, publicClient: Option<bool>, serviceAccountsEnabled: Option<bool>,
    standardFlowEnabled: Option<bool>, directAccessGrantsEnabled: Option<bool>,
    consentRequired: Option<bool>, bearerOnly: Option<bool>)

  function FlagGiven(on: Option<bool>): Option<Value> {
    match on
    case Some(value) => Some(Flag(value))
    case None => None
  }

  function WordsGiven(text: Option<string>): Option<Value> {
    match text
    case Some(value) => Some(Words(value))
    case None => None
  }

  /** The value an entry gives for a field, if any. */
  function Given(e: Entry, field: Field): Option<Value> {
    match field
    case Name => WordsGiven(e.name)
    case Description => WordsGiven(e.description)
    case Enabled => FlagGiven(e.enabled)
    case PublicClient => FlagGiven(e.publicClient)
    case ServiceAccountsEnabled => FlagGiven(e.serviceAccountsEnabled)
    case StandardFlowEnabled => FlagGiven(e.standardFlowEnabled)
    case DirectAccessGrantsEnabled => FlagGiven(e.directAccessGrantsEnabled)
    case ConsentRequired => FlagGiven(e.consentRequired)
    case BearerOnly => FlagGiven(e.bearerOnly)
  }

  /** Of the fields in `done`, the body holds exactly those the entry gives, with their values. */
  ghost predicate IsBodyOn(e: Entry, body: Body, done: set<Field>) {
    forall field ::
      && (field in body <==> field in done && Given(e, field).Some?)
      && (field in body ==> Some(body[field]) == Given(e, field))
  }

  const ALL_FIELDS: set<Field> := {
    Name, Description, Enabled, PublicClient, ServiceAccountsEnabled, StandardFlowEnabled,
    DirectAccessGrantsEnabled, ConsentRequired, BearerOnly}

  ghost predicate IsBody(e: Entry, body: Body) {
    IsBodyOn(e, body, ALL_FIELDS)
  }

  /** Field by field, what the body holds of an entry. */
  predicate BodyShows(e: Entry, body: Body) {
    && (Name in body <==> e.name.Some?)
    && (e.name.Some? ==> body[Name] == Words(e.name.value))
    && (Description in body <==> e.description.Some?)
    && (e.description.Some? ==> body[Description] == Words(e.description.value))
    && (Enabled in body <==> e.enabled.Some?)
    && (e.enabled.Some? ==> body[Enabled] == Flag(e.enabled.value))
    && (PublicClient in body <==> e.publicClient.Some?)
    && (e.publicClient.Some? ==> body[PublicClient] == Flag(e.publicClient.value))
    && (ServiceAccountsEnabled in body <==> e.serviceAccountsEnabled.Some?)
    && (e.serviceAccountsEnabled.Some? ==> body[ServiceAccountsEnabled] == Flag(e.serviceAccountsEnabled.value))
    && (StandardFlowEnabled in body <==> e.standardFlowEnabled.Some?)
    && (e.standardFlowEnabled.Some? ==> body[StandardFlowEnabled] == Flag(e.standardFlowEnabled.value))
    && (DirectAccessGrantsEnabled in body <==> e.directAccessGrantsEnabled.Some?)
    && (e.directAccessGrantsEnabled.Some? ==> body[DirectAccessGrantsEnabled] == Flag(e.directAccessGrantsEnabled.value))
    && (ConsentRequired in body <==> e.consentRequired.Some?)
    && (e.consentRequired.Some? ==> body[ConsentRequired] == Flag(e.consentRequired.value))
    && (BearerOnly in body <==> e.bearerOnly.Some?)
    && (e.bearerOnly.Some? ==> body[BearerOnly] == Flag(e.bearerOnly.value))
  }

  lemma IsBodyShows(e: Entry, body: Body)
    requires IsBody(e, body)
    ensures BodyShows(e, body)
  {
    assert forall field :: field in body <==> Given(e, field).Some? by {
      forall field {
        EveryField(field);
      }
    }
  }

  method InsertGiven(e: Entry, body: Body, field: Field, ghost done: set<Field>) returns (r: Body)
    requires IsBodyOn(e, body, done)
    ensures IsBodyOn(e, r, done + {field})
  {
    r := body;
    var given := Given(e, field);
    if given.Some? {
      r := body[field := given.value];
    }
  }

  method BuildBody(e: Entry) returns (body: Body)
    ensures IsBody(e, body)
    ensures BodyShows(e, body)
  {
    body := map[];
    ghost var done: set<Field> := {};
    body := InsertGiven(e, body, Name, done);
    done := done + {Name};
    body := InsertGiven(e, body, Description, done);
    done := done + {Description};
    body := InsertGiven(e, body, Enabled, done);
    done := done + {Enabled};
    body := InsertGiven(e, body, PublicClient, done);
    done := done + {PublicClient};
    body := InsertGiven(e, body, ServiceAccountsEnabled, done);
    done := done + {ServiceAccountsEnabled};
    body := InsertGiven(e, body, StandardFlowEnabled, done);
    done := done + {StandardFlowEnabled};
    body := InsertGiven(e, body, DirectAccessGrantsEnabled, done);
    done := done + {DirectAccessGrantsEnabled};
    body := InsertGiven(e, body, ConsentRequired, done);
    done := done + {ConsentRequired};
    body := InsertGiven(e, body, BearerOnly, done);
    done := done + {BearerOnly};
    assert done == ALL_FIELDS;
    IsBodyShows(e, body);
  }

  ghost predicate GivesNothing(e: Entry) {
    forall field :: Given(e, field).None?
  }

  lemma EveryField(field: Field)
    ensures field in ALL_FIELDS
  {}

  lemma EmptyBody(e: Entry, body: Body)
    requires IsBody(e, body)
    ensures body == map[] <==> GivesNothing(e)
  {
    forall field ensures field in body <==> Given(e, field).Some? {
      EveryField(field);
    }
  }

  // ---- Outcomes ---------------------------------------------------------------------------

  datatype Outcome = Updated(id: string) | Skipped(id: string) | Failed(client: string, error: string)

  datatype PutRequest = PutRequest(id: string, body: Body)

  type Resolver = Entry -> Result<Option<string>, string>

  /** The client an entry means, or the reason why it means none. */
  function TargetOf(e: Entry, resolve: Resolver): Result<string, Outcome> {
    if e.id.None? && e.clientId.None? then Err(Failed("unknown", "id or client_id is required."))
    else
      var shown := if e.clientId.Some? then e.clientId.value else e.id.value;
      match resolve(e)
      case Err(error) => Err(Failed(shown, error))
      case Ok(None) => Err(Failed(shown, "Client not found."))
      case Ok(Some(id)) => Ok(id)
  }

  /** The entry reaches the point where a live run sends a PUT. */
  ghost predicate Writes(e: Entry, resolve: Resolver) {
    TargetOf(e, resolve).Ok? && !GivesNothing(e)
  }

  /** What becomes of one entry; `failure` is the message of a failed PUT. */
  ghost function OutcomeOf(e: Entry, resolve: Resolver, failure: Option<string>): Outcome {
    match TargetOf(e, resolve)
    case Err(failed) => failed
    case Ok(id) =>
      if GivesNothing(e) then Skipped(id)
      else if failure.Some? then Failed(id, failure.value)
      else Updated(id)
  }

  /** What becomes of each entry when the PUT for entry `i` fails as `fails(i)` says. */
  ghost function Outcomes(entries: seq<Entry>, resolve: Resolver, fails: nat -> Option<string>): (r: seq<Outcome>)
    ensures |r| == |entries|
  {
    seq(|entries|, i requires 0 <= i < |entries| => OutcomeOf(entries[i], resolve, fails(i)))
  }

  function Ids(outcomes: seq<Outcome>): (r: seq<string>)
    requires forall o | o in outcomes :: !o.Failed?
    ensures |r| == |outcomes|
  {
    seq(|outcomes|, i requires 0 <= i < |outcomes| => (assert outcomes[i] in outcomes; outcomes[i].id))
  }

  datatype Summary = Summary(updated: seq<string>, skipped: seq<string>, errors: seq<Outcome>)

  function IsUpdated(): Outcome -> bool { (o: Outcome) => o.Updated? }
  function IsSkipped(): Outcome -> bool { (o: Outcome) => o.Skipped? }
  function IsFailed(): Outcome -> bool { (o: Outcome) => o.Failed? }

  function UpdatedIds(outcomes: seq<Outcome>): seq<string> {
    FilterMembers(IsUpdated(), outcomes);
    Ids(Filter(IsUpdated(), outcomes))
  }

  function SkippedIds(outcomes: seq<Outcome>): seq<string> {
    FilterMembers(IsSkipped(), outcomes);
    Ids(Filter(IsSkipped(), outcomes))
  }

  /** Each list keeps the order of the entries whose outcome it holds. */
  function Summarize(outcomes: seq<Outcome>): Summary {
    Summary(UpdatedIds(outcomes), SkippedIds(outcomes), Filter(IsFailed(), outcomes))
  }

  lemma UpdatedSnoc(outcomes: seq<Outcome>, o: Outcome)
    ensures UpdatedIds(outcomes + [o]) == UpdatedIds(outcomes) + (if o.Updated? then [o.id] else [])
  {
    FilterMembers(IsUpdated(), outcomes);
    FilterSnoc(IsUpdated(), outcomes, o);
  }

  lemma SkippedSnoc(outcomes: seq<Outcome>, o: Outcome)
    ensures SkippedIds(outcomes + [o]) == SkippedIds(outcomes) + (if o.Skipped? then [o.id] else [])
  {
    FilterMembers(IsSkipped(), outcomes);
    FilterSnoc(IsSkipped(), outcomes, o);
  }

  lemma SummarizeSnoc(outcomes: seq<Outcome>, o: Outcome)
    ensures var s := Summarize(outcomes);
      Summarize(outcomes + [o]) == match o
        case Updated(id) => s.(updated := s.updated + [id])
        case Skipped(id) => s.(skipped := s.skipped + [id])
        case Failed(_, _) => s.(errors := s.errors + [o])
  {
    UpdatedSnoc(outcomes, o);
    SkippedSnoc(outcomes, o);
    FilterSnoc(IsFailed(), outcomes, o);
  }

  lemma FilterSnoc<T>(p: T -> bool, s: seq<T>, x: T)
    ensures Filter(p, s + [x]) == if p(x) then Filter(p, s) + [x] else Filter(p, s)
  {
    FilterConcat(p, s, [x]);
    assert Filter(p, [x][1..]) == [];
  }

  /** The list an outcome goes to, as the predicate that selects it. */
  function ListOf(o: Outcome): Outcome -> bool {
    match o
    case Updated(_) => IsUpdated()
    case Skipped(_) => IsSkipped()
    case Failed(_, _) => IsFailed()
  }

  /** The outcome stands at place `k` of its list. */
  predicate StandsAt(s: Summary, o: Outcome, k: nat) {
    match o
    case Updated(id) => k < |s.updated| && s.updated[k] == id
    case Skipped(id) => k < |s.skipped| && s.skipped[k] == id
    case Failed(_, _) => k < |s.errors| && s.errors[k] == o
  }

  lemma OutcomeStands(outcomes: seq<Outcome>, i: nat)
    requires i < |outcomes|
    ensures StandsAt(Summarize(outcomes), outcomes[i], Place(ListOf(outcomes[i]), outcomes, i))
  {
    PlaceHolds(ListOf(outcomes[i]), outcomes, i);
    FilterMembers(IsUpdated(), outcomes);
    FilterMembers(IsSkipped(), outcomes);
  }

  /**
    The three lists partition the entries: each entry has its place in the list of its outcome,
    entries of one list keep their order, and there are as many places as entries.
   */
  lemma SummaryPartitions(outcomes: seq<Outcome>)
    ensures var s := Summarize(outcomes);
      && (forall i | 0 <= i < |outcomes| :: StandsAt(s, outcomes[i], Place(ListOf(outcomes[i]), outcomes, i)))
      && (forall i, j | 0 <= i < j < |outcomes| && ListOf(outcomes[i]) == ListOf(outcomes[j]) ::
            Place(ListOf(outcomes[i]), outcomes, i) < Place(ListOf(outcomes[j]), outcomes, j))
      && |s.updated| + |s.skipped| + |s.errors| == |outcomes|
  {
    forall i | 0 <= i < |outcomes|
      ensures StandsAt(Summarize(outcomes), outcomes[i], Place(ListOf(outcomes[i]), outcomes, i))
    {
      OutcomeStands(outcomes, i);
    }
    forall i, j | 0 <= i < j < |outcomes| && ListOf(outcomes[i]) == ListOf(outcomes[j])
      ensures Place(ListOf(outcomes[i]), outcomes, i) < Place(ListOf(outcomes[j]), outcomes, j)
    {
      PlacesAscend(ListOf(outcomes[i]), outcomes, i, j);
    }
    SummaryCounts(outcomes);
  }

  lemma {:induction false} SummaryCounts(outcomes: seq<Outcome>)
    ensures var s := Summarize(outcomes);
      |s.updated| + |s.skipped| + |s.errors| == |outcomes|
    decreases |outcomes|
  {
    if outcomes != [] {
      var front, last := outcomes[..|outcomes| - 1], outcomes[|outcomes| - 1];
      SummaryCounts(front);
      SummarizeSnoc(front, last);
      assert outcomes == front + [last];
    }
  }

  // ---- The bulk update --------------------------------------------------------------------

  datatype Refusal = ConfirmRequired | NoEntries | TooMany

  const MAX_ENTRIES: nat := 50

  ghost predicate WritesOf(entries: seq<Entry>, resolve: Resolver, puts: seq<PutRequest>)
    decreases |entries|
  {
    if entries == [] then puts == []
    else
      var front, e := entries[..|entries| - 1], entries[|entries| - 1];
      if Writes(e, resolve) then
        && puts != [] && WritesOf(front, resolve, puts[..|puts| - 1])
        && puts[|puts| - 1].id == TargetOf(e, resolve).value && IsBody(e, puts[|puts| - 1].body)
      else WritesOf(front, resolve, puts)
  }

  class BulkClient {
    var puts: seq<PutRequest>
    const resolve: Resolver
    const fails: nat -> Option<string>

    constructor (resolve: Resolver, fails: nat -> Option<string>)
      ensures puts == [] && this.resolve == resolve && this.fails == fails
    {
      puts := [];
      this.resolve := resolve;
      this.fails := fails;
    }

    method Send(id: string, body: Body, i: nat) returns (failure: Option<string>)
      modifies this
      ensures puts == old(puts) + [PutRequest(id, body)] && failure == fails(i)
    {
      puts := puts + [PutRequest(id, body)];
      failure := fails(i);
    }

    /** One entry of the loop. */
    method UpdateOne(e: Entry, i: nat, dryRun: bool) returns (o: Outcome)
      modifies this
      ensures o == OutcomeOf(e, resolve, if dryRun then None else fails(i))
      ensures var shown := if e.clientId.Some? then e.clientId else e.id;
        if shown.None? then o == Failed("unknown", "id or client_id is required.")
        else match resolve(e)
          case Err(error) => o == Failed(shown.value, error)
          case Ok(None) => o == Failed(shown.value, "Client not found.")
          case Ok(Some(id)) =>
            if GivesNothing(e) then o == Skipped(id)
            else if dryRun || fails(i).None? then o == Updated(id)
            else o == Failed(id, fails(i).value)
      ensures dryRun || !Writes(e, resolve) ==> puts == old(puts)
      ensures !dryRun && Writes(e, resolve) ==>
        exists body :: IsBody(e, body) && puts == old(puts) + [PutRequest(TargetOf(e, resolve).value, body)]
    {
      var target := TargetOf(e, resolve);
      if target.Err? {
        return target.error;
      }
      var body := BuildBody(e);
      EmptyBody(e, body);
      if body == map[] {
        return Skipped(target.value);
      }
      if !dryRun {
        var failure := Send(target.value, body, i);
        if failure.Some? {
          return Failed(target.value, failure.value);
        }
      }
      return Updated(target.value);
    }

    method UpdateAll(entries: seq<Entry>, confirm: bool, dryRun: bool) returns (r: Result<Summary, Refusal>)
      modifies this
      ensures !confirm ==> r == Err(ConfirmRequired)
      ensures confirm && entries == [] ==> r == Err(NoEntries)
      ensures confirm && |entries| > 50 ==> r == Err(TooMany)
      ensures confirm && 0 < |entries| <= 50 ==> r.Ok?
      ensures r.Err? || dryRun ==> puts == old(puts)
      ensures r.Ok? ==> r.value == Summarize(Outcomes(entries, resolve, if dryRun then NeverFails() else fails))
      ensures r.Ok? && !dryRun ==> exists sent :: puts == old(puts) + sent && WritesOf(entries, resolve, sent)
    {
      if !confirm {
        return Err(ConfirmRequired);
      }
      if entries == [] {
        return Err(NoEntries);
      }
      if |entries| > MAX_ENTRIES {
        return Err(TooMany);
      }
      var updated: seq<string>, skipped: seq<string>, errors: seq<Outcome> := [], [], [];
      ghost var sent: seq<PutRequest> := [];
      ghost var failing := if dryRun then NeverFails() else fails;
      for i := 0 to |entries|
        invariant Summary(updated, skipped, errors) == Summarize(Outcomes(entries[..i], resolve, failing))
        invariant puts == old(puts) + sent && (dryRun ==> sent == [])
        invariant !dryRun ==> WritesOf(entries[..i], resolve, sent)
      {
        ghost var before := puts;
        var o := UpdateOne(entries[i], i, dryRun);
        OutcomesSnoc(entries, resolve, failing, i);
        SummarizeSnoc(Outcomes(entries[..i], resolve, failing), o);
        match o {
          case Updated(id) => updated := updated + [id];
          case Skipped(id) => skipped := skipped + [id];
          case Failed(_, _) => errors := errors + [o];
        }
        assert entries[..i + 1][..i] == entries[..i];
        if !dryRun && Writes(entries[i], resolve) {
          ghost var body :| IsBody(entries[i], body)
            && puts == before + [PutRequest(TargetOf(entries[i], resolve).value, body)];
          ghost var put := PutRequest(TargetOf(entries[i], resolve).value, body);
          assert (sent + [put])[..|sent|] == sent;
          sent := sent + [put];
        }
      }
      assert entries[..|entries|] == entries;
      return Ok(Summary(updated, skipped, errors));
    }
  }

  function NeverFails(): nat -> Option<string> {
    (i: nat) => None
  }

  lemma OutcomesSnoc(entries: seq<Entry>, resolve: Resolver, fails: nat -> Option<string>, i: nat)
    requires i < |entries|
    ensures Outcomes(entries[..i + 1], resolve, fails)
      == Outcomes(entries[..i], resolve, fails) + [OutcomeOf(entries[i], resolve, fails(i))]
  {}

  /** A dry run sends nothing and lists, in order, exactly the clients a live run sends a PUT for. */
  lemma {:induction false} DryRunListsPuts(entries: seq<Entry>, resolve: Resolver, puts: seq<PutRequest>)
    requires WritesOf(entries, resolve, puts)
    ensures |puts| == |UpdatedIds(Outcomes(entries, resolve, NeverFails()))|
    ensures forall i | 0 <= i < |puts| :: puts[i].id == UpdatedIds(Outcomes(entries, resolve, NeverFails()))[i]
    decreases |entries|
  {
    if entries != [] {
      var n := |entries| - 1;
      OutcomesSnoc(entries, resolve, NeverFails(), n);
      assert entries[..n + 1] == entries;
      UpdatedSnoc(Outcomes(entries[..n], resolve, NeverFails()), OutcomeOf(entries[n], resolve, None));
      DryRunListsPuts(entries[..n], resolve, if Writes(entries[n], resolve) then puts[..|puts| - 1] else puts);
    }
  }

  /** A live run whose PUTs all succeed reports what the dry run reports. */
  lemma FaultlessRunMatchesDryRun(entries: seq<Entry>, resolve: Resolver, fails: nat -> Option<string>)
    requires forall i | 0 <= i < |entries| :: Writes(entries[i], resolve) ==> fails(i).None?
    ensures Outcomes(entries, resolve, fails) == Outcomes(entries, resolve, NeverFails())
  {
    forall i | 0 <= i < |entries|
      ensures OutcomeOf(entries[i], resolve, fails(i)) == OutcomeOf(entries[i], resolve, NeverFails()(i))
    {
      assert Writes(entries[i], resolve) ==> fails(i).None?;
    }
  }

  /** A failed PUT moves its entry from `updated` to `errors` and touches no other entry. */
  lemma FailuresOnlyMoveEntries(entries: seq<Entry>, resolve: Resolver, fails: nat -> Option<string>, i: nat)
    requires i < |entries|
    ensures var live, dry := Outcomes(entries, resolve, fails)[i], Outcomes(entries, resolve, NeverFails())[i];
      live != dry <==> Writes(entries[i], resolve) && fails(i).Some?
    ensures var live, dry := Outcomes(entries, resolve, fails)[i], Outcomes(entries, resolve, NeverFails())[i];
      live != dry ==> dry.Updated? && live == Failed(dry.id, fails(i).value)
  {
    assert NeverFails()(i) == None;
    assert Outcomes(entries, resolve, fails)[i] == OutcomeOf(entries[i], resolve, fails(i));
    assert Outcomes(entries, resolve, NeverFails())[i] == OutcomeOf(entries[i], resolve, None);
  }

  // ---- Pruning ----------------------------------------------------------------------------

  datatype Client = Client(id: Option<string>, clientId: Option<string>, name: Option<string>)

  /** The filters of a call; `lower` is the case folding and `compile` the regular expression engine. */
  datatype Filters = Filters(
    search: Option<string>, name: Option<string>, prefix: Option<string>, pattern: Option<string>,
    exclude: seq<string>, lower: string -> string, compile: string -> Option<string -> bool>)

  predicate NonEmpty(text: Option<string>) {
    text.Some? && text.value != ""
  }

  /** A call without a non-empty filter is refused; an empty filter counts for nothing here. */
  predicate HasFilter(f: Filters) {
    NonEmpty(f.search) || NonEmpty(f.name) || NonEmpty(f.prefix) || NonEmpty(f.pattern)
  }

  predicate PatternMatches(f: Filters, text: string) {
    f.pattern.Some? ==> f.compile(f.pattern.value).Some? && f.compile(f.pattern.value).value(text)
  }

  predicate Selected(f: Filters, c: Client) {
    && c.clientId.Some? && c.clientId.value !in f.exclude
    && (f.search.Some? ==>
      Contains(f.lower(c.clientId.value + " " + (if c.name.Some? then c.name.value else "")), f.lower(f.search.value)))
    && (f.name.Some? ==> c.name == f.name)
    && (f.prefix.Some? ==> f.prefix.value <= c.clientId.value)
    && PatternMatches(f, c.clientId.value)
  }

  /** The ids of the selected clients that have one, in the order they came in. */
  function Matched(f: Filters, clients: seq<Client>): seq<string> {
    if clients == [] then []
    else
      (if Selected(f, clients[0]) && clients[0].id.Some? then [clients[0].id.value] else []) + Matched(f, clients[1..])
  }

  datatype Action = Delete | Disable

  /** The numbers and choices of a call that may be left out. */
  datatype PruneArgs = PruneArgs(
    confirm: bool, max: Option<nat>, limit: Option<nat>, dryRun: Option<bool>, action: Option<Action>)

  datatype PruneReport = PruneReport(matched: seq<string>, processed: seq<string>, skipped: seq<string>)

  datatype PruneRefusal = Unconfirmed | NoFilter | InvalidPattern | InvalidNumber | GatewayFailed

  /** What is wrong with the arguments, in the order of the checks. */
  function Refused(f: Filters, args: PruneArgs): Option<PruneRefusal> {
    if !args.confirm then Some(Unconfirmed)
    else if !HasFilter(f) then Some(NoFilter)
    else if f.pattern.Some? && f.compile(f.pattern.value).None? then Some(InvalidPattern)
    else if args.max.Some? && !(1 <= args.max.value <= 200) then Some(InvalidNumber)
    else if args.limit.Some? && !(1 <= args.limit.value <= 200) then Some(InvalidNumber)
    else None
  }

  /** What one request makes of the server's clients, by id with their `enabled` flag. */
  function Acted(enabled: map<string, bool>, action: Action, id: string): map<string, bool> {
    match action
    case Delete => enabled - {id}
    case Disable => if id in enabled then enabled[id := false] else enabled
  }

  /** The clients in `ids`, and no others, were deleted or disabled. */
  ghost predicate ActedOn(before: map<string, bool>, now: map<string, bool>, action: Action, ids: seq<string>) {
    forall id ::
      && (id in now <==> id in before && !(action.Delete? && id in ids))
      && (id in now ==> now[id] == (before[id] && !(action.Disable? && id in ids)))
  }

  lemma FilterGiven(f: Filters)
    ensures HasFilter(f) <==> exists text: string | text != "" ::
      f.search == Some(text) || f.name == Some(text) || f.prefix == Some(text) || f.pattern == Some(text)
  {
    if HasFilter(f) {
      var text := if NonEmpty(f.search) then f.search.value else if NonEmpty(f.name) then f.name.value
        else if NonEmpty(f.prefix) then f.prefix.value else f.pattern.value;
      assert text != "" && (f.search == Some(text) || f.name == Some(text) || f.prefix == Some(text) || f.pattern == Some(text));
    }
  }

  class PruneClient {
    var sent: seq<(Action, string)>
    var enabled: map<string, bool>
    const fails: string -> bool

    constructor (enabled: map<string, bool>, fails: string -> bool)
      ensures sent == [] && this.enabled == enabled && this.fails == fails
    {
      sent := [];
      this.enabled := enabled;
      this.fails := fails;
    }

    /** One DELETE, or one PUT that disables; a failed one may have taken effect. */
    method Act(action: Action, id: string) returns (ok: bool)
      modifies this
      ensures sent == old(sent) + [(action, id)] && ok == !fails(id)
      ensures enabled == Acted(old(enabled), action, id) || (!ok && enabled == old(enabled))
    {
      ok := !fails(id);
      var applied: bool := *;
      if ok || applied {
        enabled := Acted(enabled, action, id);
      }
      sent := sent + [(action, id)];
    }

    /**
      Acts on the first matches, 50 unless told otherwise, and gives up at the first failure. It
      only reports unless it is told that this is no dry run, and disables unless told to delete.
     */
    method Prune(f: Filters, args: PruneArgs, listed: Option<seq<Client>>) returns (r: Result<PruneReport, PruneRefusal>)
      modifies this
      ensures var filtered := exists text: string | text != "" ::
          f.search == Some(text) || f.name == Some(text) || f.prefix == Some(text) || f.pattern == Some(text);
        if !args.confirm then r == Err(Unconfirmed)
        else if !filtered then r == Err(NoFilter)
        else if f.pattern.Some? && f.compile(f.pattern.value).None? then r == Err(InvalidPattern)
        else if (args.max.Some? && (args.max.value < 1 || args.max.value > 200))
          || (args.limit.Some? && (args.limit.value < 1 || args.limit.value > 200)) then r == Err(InvalidNumber)
        else Refused(f, args) == None
      ensures Refused(f, args).Some? || listed.None? || args.dryRun != Some(false) ==> sent == old(sent) && enabled == old(enabled)
      ensures Refused(f, args).None? && listed.None? ==> r == Err(GatewayFailed)
      ensures Refused(f, args).None? && listed.Some? ==>
        var matched := Matched(f, listed.value);
        var limited := Take(matched, if args.limit.Some? then args.limit.value else 50);
        var action := if args.action.Some? then args.action.value else Disable;
        if args.dryRun != Some(false) then r == Ok(PruneReport(matched, [], limited))
        else if forall id | id in limited :: !fails(id) then
          && r == Ok(PruneReport(matched, limited, []))
          && sent == old(sent) + Requests(action, limited) && ActedOn(old(enabled), enabled, action, limited)
        else
          && r == Err(GatewayFailed)
          && exists k: nat | k < |limited| && fails(limited[k]) && (forall j | 0 <= j < k :: !fails(limited[j])) ::
               && sent == old(sent) + Requests(action, limited[..k + 1])
               && (ActedOn(old(enabled), enabled, action, limited[..k]) || ActedOn(old(enabled), enabled, action, limited[..k + 1]))
    {
      var refusal := Refused(f, args);
      FilterGiven(f);
      if refusal.Some? {
        return Err(refusal.value);
      }
      if listed.None? {
        return Err(GatewayFailed);
      }
      var matched := Matched(f, listed.value);
      var limited := Take(matched, if args.limit.Some? then args.limit.value else 50);
      var action := if args.action.Some? then args.action.value else Disable;
      if args.dryRun != Some(false) {
        return Ok(PruneReport(matched, [], limited));
      }
      var done := ActOnEach(action, limited);
      if done < |limited| {
        assert limited[done] in limited;
        return Err(GatewayFailed);
      }
      return Ok(PruneReport(matched, limited, []));
    }

    /** Acts on the ids in order up to the first failure, and tells how many were done. */
    method ActOnEach(action: Action, ids: seq<string>) returns (done: nat)
      modifies this
      ensures done <= |ids| && forall j | 0 <= j < done :: !fails(ids[j])
      ensures done == |ids| ==> sent == old(sent) + Requests(action, ids) && ActedOn(old(enabled), enabled, action, ids)
      ensures done < |ids| ==>
        && fails(ids[done]) && sent == old(sent) + Requests(action, ids[..done + 1])
        && (ActedOn(old(enabled), enabled, action, ids[..done]) || ActedOn(old(enabled), enabled, action, ids[..done + 1]))
    {
      for i := 0 to |ids|
        invariant sent == old(sent) + Requests(action, ids[..i])
        invariant forall j | 0 <= j < i :: !fails(ids[j])
        invariant ActedOn(old(enabled), enabled, action, ids[..i])
      {
        ghost var before := enabled;
        var ok := Act(action, ids[i]);
        RequestsSnoc(action, ids, i);
        ActedOnMore(old(enabled), before, action, ids, i);
        if !ok {
          return i;
        }
      }
      assert ids[..|ids|] == ids;
      return |ids|;
    }
  }

  function Requests(action: Action, ids: seq<string>): seq<(Action, string)> {
    seq(|ids|, i requires 0 <= i < |ids| => (action, ids[i]))
  }

  lemma RequestsSnoc(action: Action, ids: seq<string>, i: nat)
    requires i < |ids|
    ensures Requests(action, ids[..i + 1]) == Requests(action, ids[..i]) + [(action, ids[i])]
  {}

  lemma ActedOnMore(before: map<string, bool>, now: map<string, bool>, action: Action, ids: seq<string>, i: nat)
    requires i < |ids| && ActedOn(before, now, action, ids[..i])
    ensures ActedOn(before, Acted(now, action, ids[i]), action, ids[..i + 1])
  {
    assert ids[..i + 1] == ids[..i] + [ids[i]];
  }

  /**
    An id is matched exactly when a client has it that also has a client id, is not excluded, and
    meets every filter given.
   */
  lemma {:induction false} MatchedExactly(f: Filters, clients: seq<Client>, id: string)
    ensures id in Matched(f, clients) <==> exists c | c in clients && c.id == Some(id) && c.clientId.Some? ::
      && c.clientId.value !in f.exclude
      && (f.search.Some? ==> Contains(
            f.lower(c.clientId.value + " " + (if c.name.Some? then c.name.value else "")), f.lower(f.search.value)))
      && (f.name.Some? ==> c.name == f.name)
      && (f.prefix.Some? ==> f.prefix.value <= c.clientId.value)
      && (f.pattern.Some? ==> f.compile(f.pattern.value).Some? && f.compile(f.pattern.value).value(c.clientId.value))
  {
    MatchedSelected(f, clients, id);
  }

  /** Matches come in the order of the listing, each client at most once. */
  lemma {:induction false} MatchedConcat(f: Filters, a: seq<Client>, b: seq<Client>, c: Client)
    ensures Matched(f, a + b) == Matched(f, a) + Matched(f, b)
    ensures Matched(f, [c]) == if Selected(f, c) && c.id.Some? then [c.id.value] else []
  {
    assert [c][1..] == [];
    if a == [] {
      assert a + b == b;
    } else {
      var head := if Selected(f, a[0]) && a[0].id.Some? then [a[0].id.value] else [];
      assert (a + b)[1..] == a[1..] + b;
      MatchedConcat(f, a[1..], b, c);
      assert head + (Matched(f, a[1..]) + Matched(f, b)) == head + Matched(f, a[1..]) + Matched(f, b);
    }
  }

  lemma {:induction false} MatchedSelected(f: Filters, clients: seq<Client>, id: string)
    ensures id in Matched(f, clients) <==> exists c | c in clients :: Selected(f, c) && c.id == Some(id)
  {
    if clients != [] {
      MatchedSelected(f, clients[1..], id);
      assert clients == [clients[0]] + clients[1..];
    }
  }

  /** A search for a single blank is a filter, and one that selects every client with a client id. */
  lemma BlankSearchSelectsAll(f: Filters, clients: seq<Client>, id: string)
    requires f.search == Some(" ") && f.name == None && f.prefix == None && f.pattern == None && f.exclude == []
    requires forall text :: f.lower(text) == Lower(text)
    ensures HasFilter(f)
    ensures id in Matched(f, clients) <==> exists c | c in clients :: c.id == Some(id) && c.clientId.Some?
  {
    MatchedSelected(f, clients, id);
    forall c: Client | c.clientId.Some? ensures Selected(f, c) {
      var name := if c.name.Some? then c.name.value else "";
      var text := c.clientId.value + " " + name;
      assert Lower(text)[|c.clientId.value|] == ' ';
      assert Lower(" ") == " ";
      assert " " <= Lower(text)[|c.clientId.value|..];
    }
  }
}
