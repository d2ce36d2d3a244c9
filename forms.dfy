/**
 * What the two phase editors share: the `updateData` merge that builds the
 * payload handed to `onDataChange`, the string-keyed flag and note maps with
 * their check/expand/toggle updates, and the eight incident-objective text
 * fields with the defaults their state starts from.
 */
module Forms {
  import opened Wrappers
  import opened Payload
  import opened JsText

  // ---------------------------------------------------------------------------
  // updateData

  /**
   * `{ ...data, ...state, ...updates }`: every key of the three maps, where
   * `updates` wins over the state fields and both win over the incoming data.
   */
  function Merge(data: Data, state: Data, updates: Data): (r: Data)
    ensures r.Keys == data.Keys + state.Keys + updates.Keys
    ensures forall k :: k in updates ==> r[k] == updates[k]
    ensures forall k :: k in state && k !in updates ==> r[k] == state[k]
    ensures forall k :: k in data && k !in state && k !in updates ==> r[k] == data[k]
  {
    data + state + updates
  }

  /**
   * A handler that changes one state field and passes its new value as the
   * update emits exactly the incoming data overlaid with the new state.
   */
  lemma MergeOfChangedField(data: Data, state: Data, k: string, v: Value)
    requires k in state
    ensures Merge(data, state, map[k := v]) == data + state[k := v]
  {
    var lhs := Merge(data, state, map[k := v]);
    var rhs := data + state[k := v];
    assert lhs.Keys == rhs.Keys;
    forall j | j in lhs ensures lhs[j] == rhs[j] {
    }
  }

  /**
   * An object literal spreading the entries `ks` one after the other: entry
   * `k` is written under `name(k)` with value `val(k)`, a later entry
   * overwriting an earlier one under the same name.
   */
  function Spread<K>(ks: seq<K>, name: K -> string, val: K -> Value): Data
  {
    if ks == [] then map[]
    else Spread(ks[..|ks| - 1], name, val)[name(ks[|ks| - 1]) := val(ks[|ks| - 1])]
  }

  /** Every spread entry whose name no other entry shares is found under its name with its value. */
  lemma {:induction false} SpreadLookup<K>(ks: seq<K>, name: K -> string, val: K -> Value, k: K)
    requires k in ks
    requires forall j :: j in ks && j != k ==> name(j) != name(k)
    ensures name(k) in Spread(ks, name, val) && Spread(ks, name, val)[name(k)] == val(k)
  {
    var last := ks[|ks| - 1];
    if k != last {
      assert k in ks[..|ks| - 1] by {
        var i :| 0 <= i < |ks| && ks[i] == k;
        assert ks[..|ks| - 1][i] == k;
      }
      SpreadLookup(ks[..|ks| - 1], name, val, k);
    }
  }

  /** A key no entry is named is not in the spread object. */
  lemma {:induction false} SpreadOmits<K>(ks: seq<K>, name: K -> string, val: K -> Value, y: string)
    requires forall j :: j in ks ==> name(j) != y
    ensures y !in Spread(ks, name, val)
  {
    if ks != [] {
      SpreadOmits(ks[..|ks| - 1], name, val, y);
    }
  }

  /** Spreading entries whose values agree gives the same object. */
  lemma {:induction false} SpreadAgrees<K>(ks: seq<K>, name: K -> string, val: K -> Value, val2: K -> Value)
    requires forall j :: j in ks ==> val2(j) == val(j)
    ensures Spread(ks, name, val2) == Spread(ks, name, val)
  {
    if ks != [] {
      SpreadAgrees(ks[..|ks| - 1], name, val, val2);
    }
  }

  /**
   * When only the value of entry `k` changes, and no other entry shares its
   * name, the spread object changes under that one name.
   */
  lemma {:induction false} SpreadAfter<K>(ks: seq<K>, name: K -> string, val: K -> Value, val2: K -> Value, k: K)
    requires k in ks
    requires forall j :: j in ks && j != k ==> name(j) != name(k)
    requires forall j :: j in ks && j != k ==> val2(j) == val(j)
    ensures Spread(ks, name, val2) == Spread(ks, name, val)[name(k) := val2(k)]
  {
    var init := ks[..|ks| - 1];
    var last := ks[|ks| - 1];
    assert forall j :: j in init ==> j in ks by {
      forall j | j in init ensures j in ks {
        var i :| 0 <= i < |init| && init[i] == j;
        assert ks[i] == j;
      }
    }
    if last == k {
      if k in init {
        SpreadAfter(init, name, val, val2, k);
      } else {
        SpreadAgrees(init, name, val, val2);
      }
    } else {
      assert k in init by {
        var i :| 0 <= i < |ks| && ks[i] == k;
        assert init[i] == k;
      }
      SpreadAfter(init, name, val, val2, k);
    }
  }

  /** A handler whose update is a key outside the state emits the data, the state and that key. */
  lemma MergeOfExtraKey(data: Data, state: Data, k: string, v: Value)
    requires k !in state
    ensures Merge(data, state, map[k := v]) == (data + state)[k := v]
    ensures Merge(data, state, map[k := v])[k] == v
  {
  }

  // ---------------------------------------------------------------------------
  // Flag and note maps (`Record<string, boolean>`, `Record<string, string>`)

  /** `m[k]` read as a boolean: a missing key is `undefined`, which is falsy. */
  predicate Flag(m: map<string, bool>, k: string)
  {
    k in m && m[k]
  }

  /** `{ ...m, [k]: v }`: key `k` now holds `v`; every other key keeps its value. */
  function Assign<V>(m: map<string, V>, k: string, v: V): (r: map<string, V>)
    ensures r.Keys == m.Keys + {k}
    ensures r[k] == v
    ensures forall j :: j in m && j != k ==> r[j] == m[j]
  {
    m[k := v]
  }

  /** `{ ...m, [k]: !m[k] }`: the flag of `k` is flipped; no other key changes. */
  function ToggleFlag(m: map<string, bool>, k: string): (r: map<string, bool>)
    ensures r.Keys == m.Keys + {k}
    ensures Flag(r, k) == !Flag(m, k)
    ensures forall j :: j in m && j != k ==> r[j] == m[j]
  {
    m[k := !Flag(m, k)]
  }

  /** Toggling the same key twice restores every flag as read (a missing key is then `false`). */
  lemma ToggleFlagTwice(m: map<string, bool>, k: string)
    ensures forall j :: Flag(ToggleFlag(ToggleFlag(m, k), k), j) == Flag(m, j)
    ensures k in m ==> ToggleFlag(ToggleFlag(m, k), k) == m
  {
    var twice := ToggleFlag(ToggleFlag(m, k), k);
    if k in m {
      assert twice.Keys == m.Keys;
    }
  }

  /** `data.key || {}` for a flag map: a missing or malformed entry gives the empty map. */
  function FlagsOf(data: Data, key: string): (r: map<string, bool>)
    ensures key in data && DecodeFlags(data[key]).Some? ==> r == DecodeFlags(data[key]).value
    ensures key !in data ==> r == map[]
  {
    if key in data then DecodeFlags(data[key]).GetOr(map[]) else map[]
  }

  /** `data.key || {}` for a note map. */
  function NotesOf(data: Data, key: string): (r: map<string, string>)
    ensures key in data && DecodeTexts(data[key]).Some? ==> r == DecodeTexts(data[key]).value
    ensures key !in data ==> r == map[]
  {
    if key in data then DecodeTexts(data[key]).GetOr(map[]) else map[]
  }

  /** A flag map written into the payload is read back unchanged. */
  lemma FlagsOfStored(data: Data, key: string, m: map<string, bool>)
    requires key in data && data[key] == EncodeFlags(m)
    ensures FlagsOf(data, key) == m
  {
    DecodeFlagsOfEncoded(m);
  }

  /** A note map written into the payload is read back unchanged. */
  lemma NotesOfStored(data: Data, key: string, m: map<string, string>)
    requires key in data && data[key] == EncodeTexts(m)
    ensures NotesOf(data, key) == m
  {
    DecodeTextsOfEncoded(m);
  }

  // ---------------------------------------------------------------------------
  // The incident-objective text fields

  datatype TextField =
    | IncidentPriorities | IncidentObjectives | CommandEmphasis
    | SiteSafetyPlanRequired | SiteSafetyPlanLocation
    | CriticalInformationRequirements | LimitationsConstraints | KeyDecisionsProcedures

  /** The payload key each text field is stored under. */
  function TextKey(f: TextField): string
  {
    match f
    case IncidentPriorities => "incidentPriorities"
    case IncidentObjectives => "incidentObjectives"
    case CommandEmphasis => "commandEmphasis"
    case SiteSafetyPlanRequired => "siteSafetyPlanRequired"
    case SiteSafetyPlanLocation => "siteSafetyPlanLocation"
    case CriticalInformationRequirements => "criticalInformationRequirements"
    case LimitationsConstraints => "limitationsConstraints"
    case KeyDecisionsProcedures => "keyDecisionsProcedures"
  }

  /** Different text fields are stored under different keys. */
  lemma TextKeyInjective(f: TextField, g: TextField)
    requires TextKey(f) == TextKey(g)
    ensures f == g
  {
    var a := TextKey(f);
    var b := TextKey(g);
    assert |a| == |b| && a[0] == b[0] && a[|a| - 1] == b[|b| - 1];
  }

  /** The value a text field starts from when the payload has none: "No" for the safety-plan flag, else "". */
  function TextDefault(f: TextField): string
  {
    if f == SiteSafetyPlanRequired then "No" else ""
  }

  /** The eight text state fields of an editor. */
  datatype IncidentTexts = IncidentTexts(
    incidentPriorities: string, incidentObjectives: string, commandEmphasis: string,
    siteSafetyPlanRequired: string, siteSafetyPlanLocation: string,
    criticalInformationRequirements: string, limitationsConstraints: string,
    keyDecisionsProcedures: string)
  {
    function Get(f: TextField): string
    {
      match f
      case IncidentPriorities => incidentPriorities
      case IncidentObjectives => incidentObjectives
      case CommandEmphasis => commandEmphasis
      case SiteSafetyPlanRequired => siteSafetyPlanRequired
      case SiteSafetyPlanLocation => siteSafetyPlanLocation
      case CriticalInformationRequirements => criticalInformationRequirements
      case LimitationsConstraints => limitationsConstraints
      case KeyDecisionsProcedures => keyDecisionsProcedures
    }

    /** The text change handlers (`handleIncidentPrioritiesChange`, ...): one field set, the others kept. */
    function With(f: TextField, v: string): (r: IncidentTexts)
      ensures r.Get(f) == v
      ensures forall g :: g != f ==> r.Get(g) == Get(g)
    {
      match f
      case IncidentPriorities => this.(incidentPriorities := v)
      case IncidentObjectives => this.(incidentObjectives := v)
      case CommandEmphasis => this.(commandEmphasis := v)
      case SiteSafetyPlanRequired => this.(siteSafetyPlanRequired := v)
      case SiteSafetyPlanLocation => this.(siteSafetyPlanLocation := v)
      case CriticalInformationRequirements => this.(criticalInformationRequirements := v)
      case LimitationsConstraints => this.(limitationsConstraints := v)
      case KeyDecisionsProcedures => this.(keyDecisionsProcedures := v)
    }
  }

  /** Two text records that agree on every field are equal. */
  lemma TextsEqual(a: IncidentTexts, b: IncidentTexts)
    requires forall f :: a.Get(f) == b.Get(f)
    ensures a == b
  {
    assert a.Get(IncidentPriorities) == b.Get(IncidentPriorities);
    assert a.Get(IncidentObjectives) == b.Get(IncidentObjectives);
    assert a.Get(CommandEmphasis) == b.Get(CommandEmphasis);
    assert a.Get(SiteSafetyPlanRequired) == b.Get(SiteSafetyPlanRequired);
    assert a.Get(SiteSafetyPlanLocation) == b.Get(SiteSafetyPlanLocation);
    assert a.Get(CriticalInformationRequirements) == b.Get(CriticalInformationRequirements);
    assert a.Get(LimitationsConstraints) == b.Get(LimitationsConstraints);
    assert a.Get(KeyDecisionsProcedures) == b.Get(KeyDecisionsProcedures);
  }

  /** `useState(data.key || default)` for one text field: an empty or missing string gives the default. */
  function TextOf(data: Data, f: TextField): (r: string)
    ensures GetStr(data, TextKey(f)).Some? && GetStr(data, TextKey(f)).value != "" ==> r == GetStr(data, TextKey(f)).value
    ensures GetStr(data, TextKey(f)).None? || GetStr(data, TextKey(f)).value == "" ==> r == TextDefault(f)
  {
    OrElse(GetStr(data, TextKey(f)).GetOr(""), TextDefault(f))
  }

  /** The initial text state of an editor. */
  function TextsOf(data: Data): (r: IncidentTexts)
    ensures forall f :: r.Get(f) == TextOf(data, f)
  {
    IncidentTexts(
      TextOf(data, IncidentPriorities), TextOf(data, IncidentObjectives), TextOf(data, CommandEmphasis),
      TextOf(data, SiteSafetyPlanRequired), TextOf(data, SiteSafetyPlanLocation),
      TextOf(data, CriticalInformationRequirements), TextOf(data, LimitationsConstraints),
      TextOf(data, KeyDecisionsProcedures))
  }

  /**
   * Written texts are read back unchanged, with one exception: an emptied
   * safety-plan field comes back as its default "No".
   */
  lemma TextsOfStored(data: Data, t: IncidentTexts)
    requires forall f :: TextKey(f) in data && data[TextKey(f)] == Str(t.Get(f))
    ensures TextsOf(data) == t <==> t.siteSafetyPlanRequired != ""
  {
    if t.siteSafetyPlanRequired != "" {
      TextsEqual(TextsOf(data), t);
    } else {
      assert TextsOf(data).Get(SiteSafetyPlanRequired) == "No";
    }
  }
}
