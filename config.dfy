/** The provider registry of backend/config.py: the decoded `ai.json`
    document (`cg`), the names of the usable providers (`model_list`), both
    fixed once when the module is loaded, and lookup by exact name. */
module Config {
  import opened Common
  import opened Relay

  /** Keys of a decoded JSON object are distinct. */
  predicate DistinctKeys(s: seq<(string, Value)>)
  {
    forall i, j :: 0 <= i < j < |s| ==> s[i].0 != s[j].0
  }

  /** A decoded JSON object, its entries in the order a Python dict
      iterates them (the order they appear in the file). */
  type Items = s: seq<(string, Value)> | DistinctKeys(s) witness []

  /** What reading and decoding `ai.json` gave at load time. */
  datatype LoadOutcome =
    | FileMissing            // FileNotFoundError
    | Malformed              // json.JSONDecodeError
    | ReadFailed             // any other exception while opening or reading
    | Loaded(doc: Items)     // a JSON object

  /** The two module globals after loading. */
  datatype Registry = Registry(cg: Items, modelList: seq<string>)

  /** A provider entry the registry lists: a JSON object with a truthy
      `api_key` and a truthy `base_url`. */
  predicate Usable(v: Value)
  {
    v.Object? && TruthyOpt(Get(v.fields, "api_key")) && TruthyOpt(Get(v.fields, "base_url"))
  }

  /** One turn of the comprehension `[k for k, v in cg.items() if
      v.get('api_key') and v.get('base_url')]`: `v.get` raises
      AttributeError when `v` is not a dict. */
  function Filter(item: (string, Value)): Step<string, ()>
  {
    if !item.1.Object? then Raise(())
    else if Usable(item.1) then Keep(item.0)
    else Skip
  }

  /** The module body: both globals start empty; a document that loads sets
      `cg`; the comprehension then sets `model_list`, unless it raised, in
      which case the `except` leaves `model_list` empty. */
  function Load(outcome: LoadOutcome): (r: Registry)
    ensures !outcome.Loaded? ==> r == Registry([], [])
    ensures outcome.Loaded? ==> r.cg == outcome.doc
    ensures outcome.Loaded? && !NoRaise(outcome.doc, Filter) ==> r.modelList == []
  {
    match outcome
    case Loaded(doc) =>
      Registry(doc, if NoRaise(doc, Filter) then Kept(doc, Filter) else [])
    case _ => Registry([], [])
  }

  /** `get_model_list()`: reads the global, changes nothing. */
  function GetModelList(r: Registry): (names: seq<string>)
    ensures names == r.modelList
  {
    r.modelList
  }

  /** `cg.get(model_name)`: the value stored under exactly that name, or
      None. */
  function GetModelConfig(r: Registry, name: string): (v: Option<Value>)
    ensures v.Some? <==> exists i :: 0 <= i < |r.cg| && r.cg[i].0 == name
    ensures forall i :: 0 <= i < |r.cg| && r.cg[i].0 == name ==> v == Some(r.cg[i].1)
  {
    Lookup(r.cg, name)
  }

  function Lookup(s: Items, name: string): (v: Option<Value>)
    ensures v.Some? <==> exists i :: 0 <= i < |s| && s[i].0 == name
    ensures forall i :: 0 <= i < |s| && s[i].0 == name ==> v == Some(s[i].1)
  {
    if s == [] then None
    else if s[0].0 == name then Some(s[0].1)
    else
      var t: Items := s[1..];
      assert forall i :: 1 <= i < |s| ==> s[i] == t[i - 1];
      Lookup(t, name)
  }

  /** `model_list` holds exactly the names whose entry is usable (when no
      entry made the comprehension raise). */
  lemma ModelListMembers(doc: Items, name: string)
    ensures name in Load(Loaded(doc)).modelList
            <==> NoRaise(doc, Filter) && exists i :: 0 <= i < |doc| && doc[i].0 == name && Usable(doc[i].1)
  {
    var ml := Load(Loaded(doc)).modelList;
    if name in ml {
      var a :| 0 <= a < |ml| && ml[a] == name;
      KeptFrom(doc, Filter, a);
    }
    if NoRaise(doc, Filter) && exists i :: 0 <= i < |doc| && doc[i].0 == name && Usable(doc[i].1) {
      var i :| 0 <= i < |doc| && doc[i].0 == name && Usable(doc[i].1);
      KeptAt(doc, Filter, i);
    }
  }

  /** `model_list` keeps the order of the configuration file and names no
      provider twice: the entries behind two listed names appear in the same
      order in `cg`. */
  lemma ModelListOrder(doc: Items, a: nat, b: nat)
    requires a < b < |Load(Loaded(doc)).modelList|
    ensures exists i, j :: 0 <= i < j < |doc| && doc[i].0 == Load(Loaded(doc)).modelList[a]
                           && doc[j].0 == Load(Loaded(doc)).modelList[b]
    ensures Load(Loaded(doc)).modelList[a] != Load(Loaded(doc)).modelList[b]
  {
    var ml := Load(Loaded(doc)).modelList;
    assert ml == Kept(doc, Filter);
    var i, j := KeptOrder(doc, Filter, a, b);
    assert doc[i].0 == ml[a] && doc[j].0 == ml[b];
  }

  /** Every listed name has a configuration. */
  lemma ListedHaveConfig(outcome: LoadOutcome, name: string)
    requires name in GetModelList(Load(outcome))
    ensures GetModelConfig(Load(outcome), name).Some?
    ensures Usable(GetModelConfig(Load(outcome), name).value)
  {
    ModelListMembers(outcome.doc, name);
  }
}
