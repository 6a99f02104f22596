/**
  Editing the configuration of a client registration policy: alias keys, the readers, the choice of
  the component and the whole update call up to its PUT.
 */
module ConfigEdit {
  import opened Options
  import opened Sequences
  import opened Text

  datatype Json =
    | Null
    | Bool(value: bool)
    | Number(text: string)
    | String(text: string)
    | Array(items: seq<Json>)
    | Object(members: map<string, Json>)

  type Config = map<string, Json>

  const ALLOWED_CLIENT_SCOPES_KEYS: seq<string> := ["allowedClientScopes", "allowed-client-scopes"]
  const ALLOW_DEFAULT_SCOPES_KEYS: seq<string> := ["allowDefaultScopes", "allow-default-scopes"]
  const DEFAULT_PROVIDER := "allowed-client-templates"

  // ---- Alias keys -------------------------------------------------------------------------

  /** The first of the alias keys that the configuration has. */
  function PresentKey(config: Config, keys: seq<string>): (r: Option<string>)
    ensures r.Some? ==> r.value in keys && r.value in config
    ensures r.None? <==> forall key | key in keys :: key !in config
  {
    if keys == [] then None
    else if keys[0] in config then Some(keys[0])
    else PresentKey(config, keys[1..])
  }

  function TargetKey(config: Config, keys: seq<string>): (key: string)
    requires keys != []
    ensures key in keys
  {
    match PresentKey(config, keys)
    case Some(key) => key
    case None => keys[0]
  }

  function Strings(values: seq<string>): (r: seq<Json>)
    ensures |r| == |values|
  {
    seq(|values|, i requires 0 <= i < |values| => String(values[i]))
  }

  function WithList(config: Config, keys: seq<string>, values: seq<string>): Config
    requires keys != []
  {
    config[TargetKey(config, keys) := Array(Strings(values))]
  }

  function BoolText(value: bool): string {
    if value then "true" else "false"
  }

  function WithBool(config: Config, keys: seq<string>, value: bool): Config
    requires keys != []
  {
    WithList(config, keys, [BoolText(value)])
  }

  class ConfigObject {
    var entries: Config

    constructor (entries: Config)
      ensures this.entries == entries
    {
      this.entries := entries;
    }

    method SetList(keys: seq<string>, values: seq<string>)
      requires keys != []
      modifies this
      ensures entries == WithList(old(entries), keys, values)
    {
      var target := keys[0];
      for i := 0 to |keys|
        invariant forall j | 0 <= j < i :: keys[j] !in entries
        invariant target == keys[0]
        invariant PresentKey(entries, keys) == PresentKey(entries, keys[i..])
      {
        assert keys[i..][1..] == keys[i + 1..];
        if keys[i] in entries {
          target := keys[i];
          break;
        }
      }
      entries := entries[target := Array(Strings(values))];
    }

    method SetBool(keys: seq<string>, value: bool)
      requires keys != []
      modifies this
      ensures entries == WithBool(old(entries), keys, value)
    {
      SetList(keys, [if value then "true" else "false"]);
    }
  }

  // ---- Readers ----------------------------------------------------------------------------

  function Texts(items: seq<Json>): seq<string> {
    if items == [] then []
    else (if items[0].String? then [items[0].text] else []) + Texts(items[1..])
  }

  function ReadValues(config: Config, keys: seq<string>): seq<string> {
    match PresentKey(config, keys)
    case None => []
    case Some(key) =>
      match config[key]
      case Array(items) => Texts(items)
      case String(text) => [text]
      case _ => []
  }

  function ParseBool(text: string): Option<bool> {
    var word := Lower(Trim(text));
    if word == "true" then Some(true) else if word == "false" then Some(false) else None
  }

  function BoolOf(value: Json): Option<bool> {
    match value
    case Bool(b) => Some(b)
    case String(text) => ParseBool(text)
    case _ => None
  }

  function ReadBool(config: Config, keys: seq<string>): Option<bool> {
    match PresentKey(config, keys)
    case None => None
    case Some(key) =>
      match config[key]
      case Array(items) => if items == [] then None else BoolOf(items[0])
      case value => BoolOf(value)
  }

  // ---- Round trips ------------------------------------------------------------------------

  lemma {:induction false} TextsOfStrings(values: seq<string>)
    ensures Texts(Strings(values)) == values
  {
    if values != [] {
      assert Strings(values)[1..] == Strings(values[1..]);
      TextsOfStrings(values[1..]);
    }
  }

  /** Setting a value keeps the choice of the key, so the readers find what was written. */
  lemma {:induction false} PresentAfter(config: Config, keys: seq<string>, value: Json)
    requires keys != []
    ensures PresentKey(config[TargetKey(config, keys) := value], keys) == Some(TargetKey(config, keys))
  {
    var target := TargetKey(config, keys);
    if keys[0] !in config && PresentKey(config, keys).Some? {
      assert target == TargetKey(config, keys[1..]);
      PresentAfter(config, keys[1..], value);
      assert target in config;
    }
  }

  lemma ListRoundTrip(config: Config, keys: seq<string>, values: seq<string>)
    requires keys != []
    ensures ReadValues(WithList(config, keys, values), keys) == values
  {
    PresentAfter(config, keys, Array(Strings(values)));
    TextsOfStrings(values);
  }

  lemma BoolTextParses(value: bool)
    ensures ParseBool(BoolText(value)) == Some(value)
  {
    var s := BoolText(value);
    assert TrimStart(s) == s;
    assert TrimEnd(s) == s;
    assert Lower(s) == s;
  }

  lemma BoolRoundTrip(config: Config, keys: seq<string>, value: bool)
    requires keys != []
    ensures ReadBool(WithBool(config, keys, value), keys) == Some(value)
  {
    PresentAfter(config, keys, Array(Strings([BoolText(value)])));
    BoolTextParses(value);
  }

  /** Exactly one key changes: a present alias if there is one, and no second alias appears. */
  lemma OneKeyChanges(config: Config, keys: seq<string>, values: seq<string>)
    requires keys != []
    ensures var after := WithList(config, keys, values);
      && after.Keys == config.Keys + {TargetKey(config, keys)}
      && (forall key | key in config && key != TargetKey(config, keys) :: after[key] == config[key])
      && ((exists key | key in keys :: key in config) ==> after.Keys == config.Keys)
  {
    if exists key | key in keys :: key in config {
      assert PresentKey(config, keys).Some?;
    }
  }

  lemma {:induction false} PresentKeyElsewhere(config: Config, keys: seq<string>, key: string, value: Json)
    requires key !in keys
    ensures PresentKey(config[key := value], keys) == PresentKey(config, keys)
  {
    if keys != [] {
      PresentKeyElsewhere(config, keys[1..], key, value);
    }
  }

  /** Writing under one alias list does not change what is read under another. */
  lemma OtherKeysKept(config: Config, keys: seq<string>, others: seq<string>, values: seq<string>)
    requires keys != [] && forall key | key in keys :: key !in others
    ensures ReadValues(WithList(config, keys, values), others) == ReadValues(config, others)
    ensures ReadBool(WithList(config, keys, values), others) == ReadBool(config, others)
  {
    PresentKeyElsewhere(config, others, TargetKey(config, keys), Array(Strings(values)));
  }

  // ---- Choosing the component -------------------------------------------------------------

  datatype Update = Update(
    id: Option<string>, name: Option<string>, providerId: Option<string>,
    allowedScopes: seq<string>, allowDefaultScopes: Option<bool>)

  function ProviderOf(u: Update): Option<string> {
    if u.id.None? && u.name.None? && u.providerId.None? then Some(DEFAULT_PROVIDER) else u.providerId
  }

  function TextMember(item: Json, key: string): Option<string> {
    if item.Object? && key in item.members && item.members[key].String? then Some(item.members[key].text) else None
  }

  predicate Wants(wanted: Option<string>, item: Json, key: string) {
    wanted.None? || TextMember(item, key) == wanted
  }

  predicate Matches(u: Update, item: Json) {
    Wants(u.id, item, "id") && Wants(u.name, item, "name") && Wants(ProviderOf(u), item, "providerId")
  }

  predicate HasText(item: Json, key: string, text: string) {
    item.Object? && key in item.members && item.members[key] == String(text)
  }

  /**
    A component matches when it has every id, name and provider that the arguments give; only when
    they give none of the three the default provider is wanted.
   */
  lemma MatchesExactly(u: Update, item: Json)
    ensures Matches(u, item) <==>
      && (u.id.Some? ==> HasText(item, "id", u.id.value))
      && (u.name.Some? ==> HasText(item, "name", u.name.value))
      && (u.providerId.Some? ==> HasText(item, "providerId", u.providerId.value))
      && (u.id.None? && u.name.None? && u.providerId.None? ==> HasText(item, "providerId", "allowed-client-templates"))
  {}

  method MatchComponents(components: seq<Json>, u: Update) returns (matches: seq<nat>)
    ensures forall i: nat :: i in matches <==> i < |components| && Matches(u, components[i])
    ensures forall a, b | 0 <= a < b < |matches| :: matches[a] < matches[b]
  {
    matches := [];
    for i := 0 to |components|
      invariant forall k: nat :: k in matches <==> k < i && Matches(u, components[k])
      invariant forall a | 0 <= a < |matches| :: matches[a] < i
      invariant forall a, b | 0 <= a < b < |matches| :: matches[a] < matches[b]
    {
      if Matches(u, components[i]) {
        matches := matches + [i];
      }
    }
  }

  /** The arguments always ask for something, so a component that matches is an object. */
  lemma MatchedIsObject(u: Update, item: Json)
    requires Matches(u, item)
    ensures item.Object?
  {
    assert u.id.Some? || u.name.Some? || ProviderOf(u).Some?;
  }

  // ---- The update -------------------------------------------------------------------------

  datatype Outcome =
    | NoChanges | NotFound | Ambiguous | ConfigNotObject | MissingId
    | Put(id: string, component: Json)

  predicate ConfigUsable(component: Json)
    requires component.Object?
  {
    "config" in component.members ==> component.members["config"].Object?
  }

  function ConfigOf(component: Json): Config
    requires component.Object? && ConfigUsable(component)
  {
    if "config" in component.members then component.members["config"].members else map[]
  }

  function EditedConfig(config: Config, u: Update): Config {
    var listed := WithList(config, ALLOWED_CLIENT_SCOPES_KEYS, u.allowedScopes);
    match u.allowDefaultScopes
    case None => listed
    case Some(value) => WithBool(listed, ALLOW_DEFAULT_SCOPES_KEYS, value)
  }

  function Edited(component: Json, u: Update): Json
    requires component.Object? && ConfigUsable(component)
  {
    Object(component.members["config" := Object(EditedConfig(ConfigOf(component), u))])
  }

  predicate SeveralMatch(components: seq<Json>, u: Update) {
    exists a, b | 0 <= a < b < |components| :: Matches(u, components[a]) && Matches(u, components[b])
  }

  predicate OnlyMatch(components: seq<Json>, u: Update, i: nat) {
    i < |components| && forall k | 0 <= k < |components| :: Matches(u, components[k]) <==> k == i
  }

  /** What the call does with the component it chose. */
  function EditOutcome(component: Json, u: Update): Outcome
    requires component.Object?
  {
    if !ConfigUsable(component) then ConfigNotObject
    else
      match TextMember(Edited(component, u), "id")
      case None => MissingId
      case Some(id) => if id == "" then MissingId else Put(id, Edited(component, u))
  }

  lemma EditOutcomeMeans(component: Json, u: Update)
    requires component.Object?
    ensures var members := component.members;
      if "config" in members && !members["config"].Object? then EditOutcome(component, u) == ConfigNotObject
      else if "id" !in members || !members["id"].String? || members["id"].text == "" then EditOutcome(component, u) == MissingId
      else EditOutcome(component, u) == Put(members["id"].text, Edited(component, u))
  {
    assert "id" != "config" by { assert |"id"| == 2; }
  }

  method EditComponent(chosen: Json, u: Update) returns (r: Outcome)
    requires chosen.Object?
    ensures r == EditOutcome(chosen, u)
  {
    var component := chosen.members;
    if "config" !in component {
      component := component["config" := Object(map[])];
    }
    if !component["config"].Object? {
      return ConfigNotObject;
    }
    var config := new ConfigObject(component["config"].members);
    config.SetList(ALLOWED_CLIENT_SCOPES_KEYS, u.allowedScopes);
    if u.allowDefaultScopes.Some? {
      config.SetBool(ALLOW_DEFAULT_SCOPES_KEYS, u.allowDefaultScopes.value);
    }
    component := component["config" := Object(config.entries)];
    assert Object(component) == Edited(chosen, u);
    var id := TextMember(Object(component), "id");
    if id.None? || id.value == "" {
      return MissingId;
    }
    return Put(id.value, Object(component));
  }

  /** The update call: what it refuses, and otherwise the one component it edits. */
  method UpdatePolicy(components: seq<Json>, u: Update) returns (r: Outcome)
    ensures r == NoChanges <==> u.allowedScopes == [] && u.allowDefaultScopes == None
    ensures r == NotFound <==> r != NoChanges && forall k | 0 <= k < |components| :: !Matches(u, components[k])
    ensures r == Ambiguous <==> r != NoChanges && SeveralMatch(components, u)
    ensures forall i: nat | OnlyMatch(components, u, i) && r != NoChanges ::
      && components[i].Object?
      && var members := components[i].members;
         if "config" in members && !members["config"].Object? then r == ConfigNotObject
         else if "id" !in members || !members["id"].String? || members["id"].text == "" then r == MissingId
         else r == Put(members["id"].text, Edited(components[i], u))
    ensures r.Put? ==> exists i: nat :: OnlyMatch(components, u, i)
  {
    if u.allowedScopes == [] && u.allowDefaultScopes.None? {
      return NoChanges;
    }
    var matches := MatchComponents(components, u);
    if matches == [] {
      forall k | 0 <= k < |components| ensures !Matches(u, components[k]) {
        assert k !in matches;
      }
      return NotFound;
    }
    assert matches[0] in matches;
    if |matches| > 1 {
      assert matches[1] in matches && matches[0] < matches[1];
      return Ambiguous;
    }
    SingleMatch(components, u, matches);
    MatchedIsObject(u, components[matches[0]]);
    r := EditComponent(components[matches[0]], u);
    EditOutcomeMeans(components[matches[0]], u);
  }

  /** A component that is put keeps its id, under which it is put. */
  lemma PutKeepsId(component: Json, u: Update)
    requires component.Object? && EditOutcome(component, u).Put?
    ensures TextMember(component, "id") == Some(EditOutcome(component, u).id) && EditOutcome(component, u).id != ""
  {
    assert "id" != "config" by { assert |"id"| == 2; }
  }

  lemma SingleMatch(components: seq<Json>, u: Update, matches: seq<nat>)
    requires |matches| == 1 && forall i: nat :: i in matches <==> i < |components| && Matches(u, components[i])
    ensures OnlyMatch(components, u, matches[0])
    ensures forall i: nat | OnlyMatch(components, u, i) :: i == matches[0]
  {
    assert matches == [matches[0]];
    assert matches[0] in matches;
  }

  lemma AliasesApart()
    ensures forall key | key in ALLOW_DEFAULT_SCOPES_KEYS :: key !in ALLOWED_CLIENT_SCOPES_KEYS
    ensures forall key | key in ALLOWED_CLIENT_SCOPES_KEYS :: key !in ALLOW_DEFAULT_SCOPES_KEYS
  {
    assert |"allowedClientScopes"| == 19 && |"allowed-client-scopes"| == 21;
    assert |"allowDefaultScopes"| == 18 && |"allow-default-scopes"| == 20;
  }

  /** Where the two settings go: under the key that is there, the camel-case one first, else under that. */
  lemma EditWritesKeys(config: Config, u: Update)
    ensures var after := EditedConfig(config, u);
      var scopesKey := if "allowedClientScopes" in config || "allowed-client-scopes" !in config
        then "allowedClientScopes" else "allowed-client-scopes";
      var flagKey := if "allowDefaultScopes" in config || "allow-default-scopes" !in config
        then "allowDefaultScopes" else "allow-default-scopes";
      && scopesKey in after && after[scopesKey] == Array(Strings(u.allowedScopes))
      && (u.allowDefaultScopes == Some(true) ==> flagKey in after && after[flagKey] == Array([String("true")]))
      && (u.allowDefaultScopes == Some(false) ==> flagKey in after && after[flagKey] == Array([String("false")]))
  {
    AliasesApart();
    TwoKeys(config, ALLOWED_CLIENT_SCOPES_KEYS);
    var listed := WithList(config, ALLOWED_CLIENT_SCOPES_KEYS, u.allowedScopes);
    TwoKeys(listed, ALLOW_DEFAULT_SCOPES_KEYS);
    assert "allowDefaultScopes" in ALLOW_DEFAULT_SCOPES_KEYS && "allow-default-scopes" in ALLOW_DEFAULT_SCOPES_KEYS;
    assert "allowedClientScopes" in ALLOWED_CLIENT_SCOPES_KEYS && "allowed-client-scopes" in ALLOWED_CLIENT_SCOPES_KEYS;
    if u.allowDefaultScopes.Some? {
      OneString(BoolText(u.allowDefaultScopes.value));
    }
  }

  lemma OneString(text: string)
    ensures Strings([text]) == [String(text)]
  {}

  lemma TwoKeys(config: Config, keys: seq<string>)
    requires |keys| == 2
    ensures TargetKey(config, keys) == if keys[0] in config || keys[1] !in config then keys[0] else keys[1]
  {
    assert keys[1..] == [keys[1]] && keys[1..][1..] == [];
  }

  /** How a setting is read: a list or a single text; a flag from itself, its text or the first of a list. */
  lemma ReadersMean(config: Config, key: string)
    requires key in config
    ensures ReadValues(config, [key]) == match config[key]
      case Array(items) => Texts(items)
      case String(text) => [text]
      case _ => []
    ensures forall item | config[key] == Array([item]) ::
      ReadValues(config, [key]) == if item.String? then [item.text] else []
    ensures config[key].Bool? ==> ReadBool(config, [key]) == Some(config[key].value)
    ensures config[key].String? ==>
      var word := Lower(Trim(config[key].text));
      ReadBool(config, [key]) == if word == "true" then Some(true) else if word == "false" then Some(false) else None
    ensures config[key].Array? && config[key].items != [] ==>
      ReadBool(config, [key]) == match config[key].items[0]
        case Bool(b) => Some(b)
        case String(text) => ReadBool(map[key := String(text)], [key])
        case _ => None
    ensures config[key].Null? || config[key].Number? || config[key].Object? || config[key] == Array([])
      ==> ReadBool(config, [key]) == None
  {
    assert PresentKey(config, [key]) == Some(key);
    if config[key].Array? && |config[key].items| == 1 {
      assert config[key].items[1..] == [];
    }
  }

  /** After the update the two settings read as asked, and a setting not asked for by a flag is kept. */
  lemma EditReadsBack(config: Config, u: Update)
    ensures var after := EditedConfig(config, u);
      && ReadValues(after, ALLOWED_CLIENT_SCOPES_KEYS) == u.allowedScopes
      && ReadBool(after, ALLOW_DEFAULT_SCOPES_KEYS)
        == (if u.allowDefaultScopes.Some? then u.allowDefaultScopes else ReadBool(config, ALLOW_DEFAULT_SCOPES_KEYS))
  {
    AliasesApart();
    var listed := WithList(config, ALLOWED_CLIENT_SCOPES_KEYS, u.allowedScopes);
    ListRoundTrip(config, ALLOWED_CLIENT_SCOPES_KEYS, u.allowedScopes);
    OtherKeysKept(config, ALLOWED_CLIENT_SCOPES_KEYS, ALLOW_DEFAULT_SCOPES_KEYS, u.allowedScopes);
    if u.allowDefaultScopes.Some? {
      var value := u.allowDefaultScopes.value;
      BoolRoundTrip(listed, ALLOW_DEFAULT_SCOPES_KEYS, value);
      OtherKeysKept(listed, ALLOW_DEFAULT_SCOPES_KEYS, ALLOWED_CLIENT_SCOPES_KEYS, [BoolText(value)]);
    }
  }

  /** Nothing in the component but the two settings changes. */
  lemma EditTouchesOnlySettings(component: Json, u: Update, key: string)
    requires component.Object? && ConfigUsable(component)
    ensures var after := Edited(component, u);
      && (key != "config" ==> (key in after.members <==> key in component.members))
      && (key != "config" && key in component.members ==> after.members[key] == component.members[key])
      && after.members["config"].Object?
      && (key !in ALLOWED_CLIENT_SCOPES_KEYS + ALLOW_DEFAULT_SCOPES_KEYS ==>
        var config := after.members["config"].members;
        && (key in config <==> key in ConfigOf(component))
        && (key in config ==> config[key] == ConfigOf(component)[key]))
  {
    var config := ConfigOf(component);
    var listed := WithList(config, ALLOWED_CLIENT_SCOPES_KEYS, u.allowedScopes);
    assert TargetKey(config, ALLOWED_CLIENT_SCOPES_KEYS) in ALLOWED_CLIENT_SCOPES_KEYS;
    assert TargetKey(listed, ALLOW_DEFAULT_SCOPES_KEYS) in ALLOW_DEFAULT_SCOPES_KEYS;
  }

  /**
    A call that asks for the default-scopes flag alone still writes its empty scope list: the
    allowed scopes survive exactly when none were configured.
   */
  lemma FlagAloneClearsScopes(config: Config, u: Update)
    requires u.allowedScopes == [] && u.allowDefaultScopes.Some?
    ensures ReadValues(EditedConfig(config, u), ALLOWED_CLIENT_SCOPES_KEYS) == ReadValues(config, ALLOWED_CLIENT_SCOPES_KEYS)
      <==> ReadValues(config, ALLOWED_CLIENT_SCOPES_KEYS) == []
  {
    EditReadsBack(config, u);
  }

  /** A configuration that loses its one allowed scope to a call that only sets the flag. */
  lemma FlagAloneExample() returns (config: Config, u: Update)
    ensures u.allowedScopes == [] && u.allowDefaultScopes == Some(true)
    ensures ReadValues(config, ALLOWED_CLIENT_SCOPES_KEYS) == ["email"]
    ensures ReadValues(EditedConfig(config, u), ALLOWED_CLIENT_SCOPES_KEYS) == []
  {
    u := Update(None, None, None, [], Some(true));
    config := WithList(map[], ALLOWED_CLIENT_SCOPES_KEYS, ["email"]);
    ListRoundTrip(map[], ALLOWED_CLIENT_SCOPES_KEYS, ["email"]);
    EditReadsBack(config, u);
  }
}
