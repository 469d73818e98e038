/**
  The settings file of the timer: a JSON object whose top-level entries
  override the built-in defaults, nested objects being merged one level
  deep, key by key (work_rest.py, load_config).
 */
module Config {
  import opened Wrappers

  /** A JSON value as `json.load` produces it (numbers are whole numbers here). */
  datatype Json =
    | JNull
    | JBool(b: bool)
    | JNum(n: int)
    | JStr(s: string)
    | JArray(items: seq<Json>)
    | JObject(fields: map<string, Json>)

  /** The three regimens the radio buttons offer, plus any other value a hand-edited file may hold. */
  datatype Mode = Eye | Hand | Combined | Unrecognised

  /** DEFAULT_CONFIG. */
  function Defaults(): map<string, Json> {
    map[
      "mode" := JStr("eye"),
      "eye" := JObject(map["work_min" := JNum(20), "break_sec" := JNum(20)]),
      "hand" := JObject(map["work_min" := JNum(50), "break_min" := JNum(3)]),
      "toast" := JBool(true),
      "sound" := JBool(true)
    ]
  }

  /** The value key `k` gets when the file gives it value `v`. */
  function MergedEntry(defaults: map<string, Json>, k: string, v: Json): Json {
    if v.JObject? && k in defaults && defaults[k].JObject?
    then JObject(defaults[k].fields + v.fields)
    else v
  }

  /** Whether both the file and the defaults hold an object under `k`. */
  predicate BothObjects(defaults: map<string, Json>, file: map<string, Json>, k: string) {
    k in defaults && k in file && defaults[k].JObject? && file[k].JObject?
  }

  /** The configuration the merge loop of load_config produces from `defaults` and the file's map. */
  function Merged(defaults: map<string, Json>, file: map<string, Json>): (r: map<string, Json>)
    ensures r.Keys == defaults.Keys + file.Keys
    ensures forall k :: k in defaults && k !in file ==> r[k] == defaults[k]
    ensures forall k :: k in file && !BothObjects(defaults, file, k) ==> r[k] == file[k]
    ensures forall k :: BothObjects(defaults, file, k) ==>
              r[k] == JObject(defaults[k].fields + file[k].fields)
    ensures file == map[] ==> r == defaults
  {
    map k | k in defaults.Keys + file.Keys ::
      if k in file then MergedEntry(defaults, k, file[k]) else defaults[k]
  }

  /** Merging one more file entry updates exactly that key of the merged map. */
  lemma MergedAddEntry(defaults: map<string, Json>, done: map<string, Json>, k: string, v: Json)
    requires k !in done
    ensures Merged(defaults, done[k := v]) == Merged(defaults, done)[k := MergedEntry(defaults, k, v)]
  {
    var lhs := Merged(defaults, done[k := v]);
    var rhs := Merged(defaults, done)[k := MergedEntry(defaults, k, v)];
    assert lhs.Keys == rhs.Keys;
    forall j | j in lhs.Keys ensures lhs[j] == rhs[j] {
    }
  }

  /** The merge loop of load_config: walks the file's entries and updates a copy of `defaults`. */
  method Merge(defaults: map<string, Json>, file: map<string, Json>) returns (merged: map<string, Json>)
    ensures merged == Merged(defaults, file)
  {
    merged := defaults;
    var todo := file.Keys;
    assert file - todo == map[];
    while todo != {}
      invariant todo <= file.Keys
      invariant merged == Merged(defaults, file - todo)
      decreases todo
    {
      var k :| k in todo;
      var v := file[k];
      ghost var done := file - todo;
      assert k !in done;
      assert (k in merged) == (k in defaults) && (k in defaults ==> merged[k] == defaults[k]);
      var entry;
      if v.JObject? && k in merged {
        entry := if merged[k].JObject? then JObject(merged[k].fields + v.fields) else v;
      } else {
        entry := v;
      }
      assert entry == MergedEntry(defaults, k, v);
      MergedAddEntry(defaults, done, k, v);
      merged := merged[k := entry];
      todo := todo - {k};
      assert file - todo == done[k := v];
    }
  }

  /**
    load_config once the file has been read: `parsed` is None when the file
    is missing, unreadable or not JSON. A JSON value that is not an object
    makes the merge loop fail, which falls back to the defaults as well.
   */
  method LoadConfig(parsed: Option<Json>) returns (cfg: map<string, Json>)
    ensures Defaults().Keys <= cfg.Keys
    ensures parsed.Some? && parsed.value.JObject? ==>
              cfg.Keys == Defaults().Keys + parsed.value.fields.Keys
    ensures parsed.Some? && parsed.value.JObject? ==>
              forall k :: k in parsed.value.fields && !BothObjects(Defaults(), parsed.value.fields, k) ==>
                cfg[k] == parsed.value.fields[k]
    ensures parsed.Some? && parsed.value.JObject? ==> cfg == Merged(Defaults(), parsed.value.fields)
    ensures !(parsed.Some? && parsed.value.JObject?) ==> cfg == Defaults()
  {
    if parsed.Some? && parsed.value.JObject? {
      cfg := Merge(Defaults(), parsed.value.fields);
    } else {
      cfg := Defaults();
    }
  }

  /**
    `CONFIG.get("mode", "eye")` read as a regimen. Eye is what the lookup with
    the "eye" default finds; Combined is exactly what the test
    `CONFIG.get("mode") == "combined"` of tick accepts.
   */
  function ModeOf(cfg: map<string, Json>): (r: Mode)
    ensures r == Eye <==> "mode" !in cfg || cfg["mode"] == JStr("eye")
    ensures r == Hand <==> "mode" in cfg && cfg["mode"] == JStr("hand")
    ensures r == Combined <==> "mode" in cfg && cfg["mode"] == JStr("combined")
  {
    if "mode" !in cfg then Eye
    else match cfg["mode"]
      case JStr(s) => if s == "eye" then Eye else if s == "hand" then Hand
                      else if s == "combined" then Combined else Unrecognised
      case _ => Unrecognised
  }

  /** Nested objects are merged key by key: file entries win, other default entries stay. */
  lemma NestedMergeKeyByKey(defaults: map<string, Json>, file: map<string, Json>, k: string, j: string)
    requires BothObjects(defaults, file, k)
    ensures var r := Merged(defaults, file)[k];
      && r.JObject?
      && (j in r.fields <==> j in defaults[k].fields || j in file[k].fields)
      && (j in file[k].fields ==> r.fields[j] == file[k].fields[j])
      && (j !in file[k].fields && j in defaults[k].fields ==> r.fields[j] == defaults[k].fields[j])
  {
  }

  /** A file that sets only the mode keeps every other default, and the timer reads that mode. */
  lemma ModeFromFile(file: map<string, Json>, name: string)
    requires file == map["mode" := JStr(name)]
    ensures var cfg := Merged(Defaults(), file);
      && cfg.Keys == Defaults().Keys
      && cfg["mode"] == JStr(name)
      && (forall k :: k in Defaults() && k != "mode" ==> cfg[k] == Defaults()[k])
      && (name == "eye" ==> ModeOf(cfg) == Eye)
      && (name == "hand" ==> ModeOf(cfg) == Hand)
      && (name == "combined" ==> ModeOf(cfg) == Combined)
      && (name !in {"eye", "hand", "combined"} ==> ModeOf(cfg) == Unrecognised)
  {
  }
}
