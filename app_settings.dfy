/**
 * app.py: the server's handling of the settings file. `save_settings` copies
 * the request's sections into the stored settings, `verify_settings_saved`
 * compares a request with what was saved, the VBAN source list is built from
 * the detector's active sources, and the RTSP URL is derived from the audio
 * source. Files, Flask and threads are left out; a stored file is a JSON value
 * or absent.
 */
module AppSettings {
  import opened Outcome
  import opened Json
  import Text

  /** The exceptions these functions can raise; each is caught and reported as failure. */
  datatype PyError = TypeError | KeyError | AttributeError

  /** Python's `key in v`: a dict tests its keys, a list its elements, a string its substrings; anything else raises. */
  function PyIn(key: string, v: Json): (r: Result<bool, PyError>)
    ensures r.Err? <==> v.JNull? || v.JBool? || v.JNum?
    ensures v.JObj? ==> r == Ok(key in v.fields)
  {
    match v
    case JObj(m) => Ok(key in m)
    case JArr(items) => Ok(JStr(key) in items)
    case JStr(s) => Ok(exists i :: 0 <= i <= |s| && Text.StartsWith(s[i..], key))
    case _ => Err(TypeError)
  }

  /** Python's `v[key]` with a string key: only a dict holding the key answers. */
  function Index(v: Json, key: string): (r: Result<Json, PyError>)
    ensures r.Ok? <==> v.JObj? && key in v.fields
    ensures r.Ok? ==> r.value == v.fields[key]
  {
    match v
    case JObj(m) => if key in m then Ok(m[key]) else Err(KeyError)
    case _ => Err(TypeError)
  }

  /** Python's `v.get(key, fallback)`: only a dict has `get`. */
  function PyGet(v: Json, key: string, fallback: Json): (r: Result<Json, PyError>)
    ensures r.Ok? <==> v.JObj?
    ensures v.JObj? ==> r.value == if key in v.fields then v.fields[key] else fallback
  {
    match v
    case JObj(m) => Ok(if key in m then m[key] else fallback)
    case _ => Err(AttributeError)
  }

  /** Python's `len(v)`: defined for lists, strings and dicts. */
  function Len(v: Json): (r: Result<nat, PyError>)
    ensures r.Ok? <==> v.JArr? || v.JStr? || v.JObj?
    ensures v.JArr? ==> r == Ok(|v.items|)
  {
    match v
    case JArr(items) => Ok(|items|)
    case JStr(s) => Ok(|s|)
    case JObj(m) => Ok(|m.Keys|)
    case _ => Err(TypeError)
  }

  // save_settings

  /** The stored settings `save_settings` starts from: the file's content, or `{}` when there is no file. */
  function Base(stored: Option<Json>): Json
  {
    if stored.Some? then stored.value else JObj(map[])
  }

  /** The four sections `save_settings` copies, in its order. */
  const SavedSections: seq<string> := ["global", "microphone", "rtsp_sources", "vban"]

  /** One of `save_settings`' four copies: `if key in update: settings[key] = update[key]`. */
  function CopySection(settings: Json, update: Json, key: string): (r: Result<Json, PyError>)
    ensures r.Ok? && update.JObj? && key in update.fields ==>
      settings.JObj? && r.value == JObj(settings.fields[key := update.fields[key]])
    ensures r.Ok? && !(update.JObj? && key in update.fields) ==> r.value == settings
    ensures update.JObj? && settings.JObj? ==> r.Ok?
  {
    match PyIn(key, update)
    case Err(e) => Err(e)
    case Ok(false) => Ok(settings)
    case Ok(true) =>
      match Index(update, key)
      case Err(e) => Err(e)
      case Ok(v) => if settings.JObj? then Ok(JObj(settings.fields[key := v])) else Err(TypeError)
  }

  /** The section merge of `save_settings`, one copy after another. */
  function Save(stored: Option<Json>, update: Json): Result<Json, PyError>
  {
    var s0 := Base(stored);
    match CopySection(s0, update, "global")
    case Err(e) => Err(e)
    case Ok(s1) =>
      match CopySection(s1, update, "microphone")
      case Err(e) => Err(e)
      case Ok(s2) =>
        match CopySection(s2, update, "rtsp_sources")
        case Err(e) => Err(e)
        case Ok(s3) => CopySection(s3, update, "vban")
  }

  /**
   * For a dict request and a dict file (or none), the merge succeeds; each of
   * the four sections the request carries replaces the stored one, and every
   * other stored key keeps its value and no other key appears.
   */
  lemma SaveReplacesSections(stored: Option<Json>, update: Json)
    requires update.JObj? && Base(stored).JObj?
    ensures Save(stored, update).Ok?
    ensures var saved := Save(stored, update).value;
      && saved.JObj?
      && (forall k :: k in SavedSections && k in update.fields ==> k in saved.fields && saved.fields[k] == update.fields[k])
      && (forall k :: !(k in SavedSections && k in update.fields) ==>
            (k in saved.fields <==> k in Base(stored).fields)
            && (k in saved.fields ==> saved.fields[k] == Base(stored).fields[k]))
  {
  }

  /** A request that carries none of the four sections leaves the stored settings as they were, whatever they are. */
  lemma SaveWithoutSections(stored: Option<Json>, update: Json)
    requires update.JObj? && forall k :: k in SavedSections ==> k !in update.fields
    ensures Save(stored, update) == Ok(Base(stored))
  {
  }

  /** One `if key in new_settings: settings[key] = new_settings[key]` of `save_settings`. */
  method CopyInto(settings: Json, update: Json, key: string) returns (r: Result<Json, PyError>)
    ensures r == CopySection(settings, update, key)
  {
    var has := PyIn(key, update);
    if has.Err? {
      return Err(has.error);
    }
    if !has.value {
      return Ok(settings);
    }
    var value := Index(update, key);
    if value.Err? {
      return Err(value.error);
    }
    if !settings.JObj? {
      return Err(TypeError);
    }
    return Ok(JObj(settings.fields[key := value.value]));
  }

  /**
   * `save_settings`' merge: the four copies in order; the first exception ends
   * it. `stored` is the file's content, `None` when there is no file.
   */
  method SaveSettings(stored: Option<Json>, update: Json) returns (r: Result<Json, PyError>)
    ensures r == Save(stored, update)
  {
    var settings := Base(stored);
    r := CopyInto(settings, update, "global");
    if r.Err? {
      return;
    }
    r := CopyInto(r.value, update, "microphone");
    if r.Err? {
      return;
    }
    r := CopyInto(r.value, update, "rtsp_sources");
    if r.Err? {
      return;
    }
    r := CopyInto(r.value, update, "vban");
  }

  // The self-test's invalid settings (app.py:292-300)

  /** The request the self-test expects `save_settings` to refuse: a threshold that is not a number and a negative delay. */
  const InvalidRequest: Json := JObj(map["global" := JObj(map["threshold" := JStr("invalid"), "delay" := JNum(-1.0)])])

  /** Python's `float(v)` on a JSON value: numbers and booleans convert, a string as `parse` reads it, the rest raise (`None`). */
  function PyFloat(v: Json, parse: string -> Option<real>): Option<real>
  {
    match v
    case JNum(n) => Some(n)
    case JBool(b) => Some(BoolNum(b))
    case JStr(s) => parse(s)
    case _ => None
  }

  /** A global section the detector can use: a threshold that converts into [0, 1] and a delay that converts to a non-negative number. */
  predicate GlobalUsable(global: Json, parse: string -> Option<real>)
  {
    && global.JObj?
    && var t := PyFloat(Get(global.fields, "threshold"), parse);
    && var d := PyFloat(Get(global.fields, "delay"), parse);
    && t.Some? && 0.0 <= t.value <= 1.0
    && d.Some? && d.value >= 0.0
  }

  /** `save_settings` as written stores the self-test's invalid request; nothing checks the values. */
  lemma SaveAcceptsInvalid(parse: string -> Option<real>)
    ensures Save(None, InvalidRequest).Ok?
    ensures !GlobalUsable(InvalidRequest.fields["global"], parse)
  {
    assert PyFloat(JNum(-1.0), parse) == Some(-1.0);
  }

  /**
   * The save the self-test expects: a request whose global section is not
   * usable is refused before anything is stored; otherwise the merge proceeds.
   */
  function SaveChecked(stored: Option<Json>, update: Json, parse: string -> Option<real>): (r: Result<Json, PyError>)
    ensures r.Ok? ==> r == Save(stored, update)
    ensures r.Ok? && update.JObj? && "global" in update.fields ==>
      "global" in r.value.fields && GlobalUsable(r.value.fields["global"], parse)
    ensures update.JObj? && Base(stored).JObj? ==>
      (r.Ok? <==> "global" !in update.fields || GlobalUsable(update.fields["global"], parse))
  {
    if update.JObj? && "global" in update.fields && !GlobalUsable(update.fields["global"], parse) then Err(TypeError)
    else if update.JObj? && Base(stored).JObj? then
      SaveReplacesSections(stored, update);
      Save(stored, update)
    else Save(stored, update)
  }

  /** The checked save refuses the self-test's invalid request, whatever `parse` makes of "invalid". */
  lemma SaveCheckedRefusesInvalid(stored: Option<Json>, parse: string -> Option<real>)
    ensures SaveChecked(stored, InvalidRequest, parse).Err?
  {
    assert !GlobalUsable(InvalidRequest.fields["global"], parse) by {
      assert PyFloat(JNum(-1.0), parse) == Some(-1.0);
    }
  }

  // verify_settings_saved

  const GlobalFields: seq<string> := ["threshold", "delay", "chunk_duration", "buffer_duration"]
  const MicrophoneFields: seq<string> := ["device_index", "audio_source", "webhook_url"]
  const RtspFields: seq<string> := ["name", "url", "webhook_url"]

  /** `a.get(f) != b.get(f)` for each field in turn, returning at the first difference; the `get`s raise on non-dicts. */
  function FieldsMatch(a: Json, b: Json, fields: seq<string>): (r: Result<bool, PyError>)
    ensures fields != [] ==>
      (r == Ok(true) <==> a.JObj? && b.JObj? && forall f :: f in fields ==> PyEq(Get(a.fields, f), Get(b.fields, f)))
  {
    if fields == [] then Ok(true)
    else
      match PyGet(a, fields[0], JNull)
      case Err(e) => Err(e)
      case Ok(x) =>
        match PyGet(b, fields[0], JNull)
        case Err(e) => Err(e)
        case Ok(y) =>
          if !PyEq(x, y) then
            assert fields[0] in fields;
            Ok(false)
          else
            var rest := FieldsMatch(a, b, fields[1..]);
            assert forall f :: f in fields <==> f == fields[0] || f in fields[1..];
            rest
  }

  /** The check of one dict section: skipped when the request lacks it, else its fields compared. */
  function SectionMatch(update: Json, saved: Json, key: string, fields: seq<string>): Result<bool, PyError>
  {
    match PyIn(key, update)
    case Err(e) => Err(e)
    case Ok(false) => Ok(true)
    case Ok(true) =>
      match Index(update, key)
      case Err(e) => Err(e)
      case Ok(a) =>
        match Index(saved, key)
        case Err(e) => Err(e)
        case Ok(b) => FieldsMatch(a, b, fields)
  }

  /** The `zip` of two equally long lists of sources, compared pair by pair. */
  function PairsMatch(xs: seq<Json>, ys: seq<Json>): (r: Result<bool, PyError>)
    requires |xs| == |ys|
    ensures r == Ok(true) <==> forall i :: 0 <= i < |xs| ==> FieldsMatch(xs[i], ys[i], RtspFields) == Ok(true)
  {
    if xs == [] then Ok(true)
    else
      match FieldsMatch(xs[0], ys[0], RtspFields)
      case Ok(true) =>
        var rest := PairsMatch(xs[1..], ys[1..]);
        assert forall i :: 1 <= i < |xs| ==> xs[i] == xs[1..][i - 1] && ys[i] == ys[1..][i - 1];
        rest
      case other => other
  }

  /**
   * The RTSP check: the lengths must agree (a saved list defaults to empty),
   * then the saved key must exist for the `zip`, and the pairs must match.
   * Iterating a non-empty string or dict yields strings, which have no `get`.
   */
  function RtspMatch(update: Json, saved: Json): Result<bool, PyError>
  {
    match PyIn("rtsp_sources", update)
    case Err(e) => Err(e)
    case Ok(false) => Ok(true)
    case Ok(true) =>
      match Index(update, "rtsp_sources")
      case Err(e) => Err(e)
      case Ok(a) =>
        match PyGet(saved, "rtsp_sources", JArr([]))
        case Err(e) => Err(e)
        case Ok(b0) =>
          match (Len(a), Len(b0))
          case (Err(e), _) => Err(e)
          case (_, Err(e)) => Err(e)
          case (Ok(n), Ok(m)) =>
            if n != m then Ok(false)
            else
              match Index(saved, "rtsp_sources")
              case Err(e) => Err(e)
              case Ok(b) =>
                if n == 0 then Ok(true)
                else if a.JArr? && b.JArr? then PairsMatch(a.items, b.items)
                else Err(AttributeError)
  }

  /** The three checks in order, the first failure or exception ending the run. */
  function VerifyRun(update: Json, saved: Json): Result<bool, PyError>
  {
    match SectionMatch(update, saved, "global", GlobalFields)
    case Ok(true) =>
      (match SectionMatch(update, saved, "microphone", MicrophoneFields)
       case Ok(true) => RtspMatch(update, saved)
       case other => other)
    case other => other
  }

  /** `verify_settings_saved`: `True` only when every check passes; a difference and an exception both give `False`. */
  function VerifySettingsSaved(update: Json, saved: Json): bool
  {
    VerifyRun(update, saved) == Ok(true)
  }

  /** The saved section `key` is a dict agreeing with the request's dict section on `fields`. */
  predicate SectionAgrees(update: map<string, Json>, saved: Json, key: string, fields: seq<string>)
    requires key in update
  {
    && saved.JObj? && key in saved.fields
    && update[key].JObj? && saved.fields[key].JObj?
    && forall f :: f in fields ==> PyEq(Get(update[key].fields, f), Get(saved.fields[key].fields, f))
  }

  /** The saved RTSP list has the request's length and, when not empty, agrees item by item on the compared fields. */
  predicate RtspAgrees(update: map<string, Json>, saved: Json)
    requires "rtsp_sources" in update
  {
    var a := update["rtsp_sources"];
    && saved.JObj? && "rtsp_sources" in saved.fields
    && var b := saved.fields["rtsp_sources"];
    && Len(a).Ok? && Len(b).Ok? && Len(a).value == Len(b).value
    && (Len(a).value > 0 ==>
          && a.JArr? && b.JArr?
          && forall i :: 0 <= i < |a.items| ==>
               a.items[i].JObj? && b.items[i].JObj?
               && forall f :: f in RtspFields ==> PyEq(Get(a.items[i].fields, f), Get(b.items[i].fields, f)))
  }

  /**
   * For a dict request, `verify_settings_saved` holds exactly when each of the
   * global, microphone and RTSP sections the request carries agrees with the
   * saved one.
   */
  lemma VerifyExactly(update: map<string, Json>, saved: Json)
    ensures VerifySettingsSaved(JObj(update), saved) <==>
      && ("global" in update ==> SectionAgrees(update, saved, "global", GlobalFields))
      && ("microphone" in update ==> SectionAgrees(update, saved, "microphone", MicrophoneFields))
      && ("rtsp_sources" in update ==> RtspAgrees(update, saved))
  {
    SectionMatchExactly(update, saved, "global", GlobalFields);
    SectionMatchExactly(update, saved, "microphone", MicrophoneFields);
    RtspMatchExactly(update, saved);
  }

  /** One dict section's check passes exactly when the request lacks the section or the saved one agrees with it. */
  lemma SectionMatchExactly(update: map<string, Json>, saved: Json, key: string, fields: seq<string>)
    requires fields != []
    ensures SectionMatch(JObj(update), saved, key, fields) == Ok(true) <==>
      (key in update ==> SectionAgrees(update, saved, key, fields))
  {
  }

  /** The RTSP check passes exactly when the request lacks the list or the saved one agrees with it. */
  lemma RtspMatchExactly(update: map<string, Json>, saved: Json)
    ensures RtspMatch(JObj(update), saved) == Ok(true) <==>
      ("rtsp_sources" in update ==> RtspAgrees(update, saved))
  {
    if "rtsp_sources" in update && saved.JObj? && "rtsp_sources" in saved.fields {
      var a := update["rtsp_sources"];
      var b := saved.fields["rtsp_sources"];
      if a.JArr? && b.JArr? && |a.items| == |b.items| && |a.items| > 0 {
        assert PairsMatch(a.items, b.items) == Ok(true) <==>
          forall i :: 0 <= i < |a.items| ==> FieldsMatch(a.items[i], b.items[i], RtspFields) == Ok(true);
      }
    }
  }


  /**
   * What `save_settings` stores passes `verify_settings_saved` against the
   * request it came from, when the request's sections have the expected shapes.
   */
  lemma SaveThenVerify(stored: Option<Json>, update: map<string, Json>)
    requires Base(stored).JObj?
    requires "global" in update ==> update["global"].JObj?
    requires "microphone" in update ==> update["microphone"].JObj?
    requires "rtsp_sources" in update ==>
      update["rtsp_sources"].JArr? && forall i :: 0 <= i < |update["rtsp_sources"].items| ==> update["rtsp_sources"].items[i].JObj?
    ensures Save(stored, JObj(update)).Ok?
    ensures VerifySettingsSaved(JObj(update), Save(stored, JObj(update)).value)
  {
    SaveReplacesSections(stored, JObj(update));
    var saved := Save(stored, JObj(update)).value;
    forall k, f | k in update && update[k].JObj? && f in update[k].fields
      ensures PyEq(update[k].fields[f], update[k].fields[f])
    {
      PyEqReflexive(update[k].fields[f]);
    }
    if "rtsp_sources" in update {
      var a := update["rtsp_sources"];
      forall i, f | 0 <= i < |a.items| && f in a.items[i].fields
        ensures PyEq(a.items[i].fields[f], a.items[i].fields[f])
      {
        PyEqReflexive(a.items[i].fields[f]);
      }
    }
    VerifyExactly(update, saved);
  }

  // refresh_vban_sources

  /** An entry of the list the page shows. */
  datatype Listed = Listed(name: string, url: string)

  /** The entry for source `ip` with stripped name `name`. */
  function EntryFor(ip: string, name: string): Listed
  {
    Listed("VBAN: " + name + " (" + ip + ")", "vban://" + ip)
  }

  /** `info.get('name', '').strip()`: `info` must be a dict and the name, when present, a string. */
  function SourceName(info: Json): (r: Result<string, PyError>)
    ensures r.Ok? <==> info.JObj? && ("name" in info.fields ==> info.fields["name"].JStr?)
    ensures r.Ok? && "name" !in info.fields ==> r.value == ""
  {
    match PyGet(info, "name", JStr(""))
    case Err(e) => Err(e)
    case Ok(JStr(s)) => Ok(Text.Strip(s))
    case Ok(_) => Err(AttributeError)
  }

  /** The list built from the active sources, in their order; the first exception ends the route. */
  function SourceList(sources: seq<(string, Json)>): Result<seq<Listed>, PyError>
  {
    if sources == [] then Ok([])
    else
      var last := sources[|sources| - 1];
      match SourceList(sources[..|sources| - 1])
      case Err(e) => Err(e)
      case Ok(before) =>
        match SourceName(last.1)
        case Err(e) => Err(e)
        case Ok(name) => Ok(before + if name != "" then [EntryFor(last.0, name)] else [])
  }

  /** Source `k` is listed: its name, stripped, is not empty. */
  predicate Named(sources: seq<(string, Json)>, k: int)
    requires 0 <= k < |sources|
  {
    SourceName(sources[k].1).Ok? && SourceName(sources[k].1).value != ""
  }

  /** The list is built exactly when every source's info is a dict with a string name or none. */
  lemma {:induction false} SourceListBuilt(sources: seq<(string, Json)>)
    ensures SourceList(sources).Ok? <==> forall k :: 0 <= k < |sources| ==> SourceName(sources[k].1).Ok?
  {
    if sources != [] {
      var init := sources[..|sources| - 1];
      SourceListBuilt(init);
      assert forall k :: 0 <= k < |init| ==> init[k] == sources[k];
    }
  }

  /** The entries of the sources with a non-blank name. */
  function Candidates(sources: seq<(string, Json)>): set<Listed>
  {
    set k | 0 <= k < |sources| && Named(sources, k) :: EntryFor(sources[k].0, SourceName(sources[k].1).value)
  }

  lemma CandidatesGrow(sources: seq<(string, Json)>)
    requires sources != []
    ensures Candidates(sources[..|sources| - 1]) <= Candidates(sources)
  {
    var init := sources[..|sources| - 1];
    forall e | e in Candidates(init)
      ensures e in Candidates(sources)
    {
      var k :| 0 <= k < |init| && Named(init, k) && e == EntryFor(init[k].0, SourceName(init[k].1).value);
      assert init[k] == sources[k];
    }
  }

  /** Every listed entry is that of a source with a non-blank name, and there are no more entries than sources. */
  lemma {:induction false} SourceListSound(sources: seq<(string, Json)>)
    requires SourceList(sources).Ok?
    ensures |SourceList(sources).value| <= |sources|
    ensures forall e :: e in SourceList(sources).value ==> e in Candidates(sources)
  {
    if sources != [] {
      var last := |sources| - 1;
      var init := sources[..last];
      SourceListSound(init);
      CandidatesGrow(sources);
      var name := SourceName(sources[last].1).value;
      if name != "" {
        assert Named(sources, last);
        assert EntryFor(sources[last].0, name) in Candidates(sources);
      }
    }
  }

  /** A source with a non-blank name is listed, with its `vban://` URL. */
  lemma {:induction false} SourceListComplete(sources: seq<(string, Json)>, k: nat)
    requires SourceList(sources).Ok?
    requires k < |sources| && Named(sources, k)
    ensures EntryFor(sources[k].0, SourceName(sources[k].1).value) in SourceList(sources).value
  {
    var last := |sources| - 1;
    var init := sources[..last];
    assert SourceList(init).Ok?;
    var before := SourceList(init).value;
    var name := SourceName(sources[last].1);
    assert name.Ok?;
    var out := SourceList(sources).value;
    assert out == before + if name.value != "" then [EntryFor(sources[last].0, name.value)] else [];
    var e := EntryFor(sources[k].0, SourceName(sources[k].1).value);
    if k < last {
      assert init[k] == sources[k];
      assert Named(init, k);
      SourceListComplete(init, k);
      assert e in before;
      var j :| 0 <= j < |before| && before[j] == e;
      assert out[j] == e;
    } else {
      assert k == last && name.value != "";
      assert out == before + [e];
    }
  }

  /**
   * The list holds exactly the entries of the sources with a non-blank name,
   * each with its `vban://` URL, and no more entries than sources.
   */
  lemma SourceListExactly(sources: seq<(string, Json)>)
    requires SourceList(sources).Ok?
    ensures |SourceList(sources).value| <= |sources|
    ensures forall e :: e in SourceList(sources).value <==> e in Candidates(sources)
  {
    SourceListSound(sources);
    forall e | e in Candidates(sources)
      ensures e in SourceList(sources).value
    {
      var k :| 0 <= k < |sources| && Named(sources, k) && e == EntryFor(sources[k].0, SourceName(sources[k].1).value);
      SourceListComplete(sources, k);
    }
  }

  /** The loop of `refresh_vban_sources` over the active sources, one entry at a time. */
  method RefreshVbanSources(sources: seq<(string, Json)>) returns (r: Result<seq<Listed>, PyError>)
    ensures r == SourceList(sources)
  {
    var listed: seq<Listed> := [];
    for i := 0 to |sources|
      invariant SourceList(sources[..i]) == Ok(listed)
    {
      assert sources[..i + 1][..i] == sources[..i];
      var ip := sources[i].0;
      var name := SourceName(sources[i].1);
      if name.Err? {
        assert SourceList(sources[..i + 1]).Err?;
        SourceListPrefixErr(sources, i + 1);
        return Err(name.error);
      }
      assert listed + [] == listed;
      assert SourceList(sources[..i + 1]) == Ok(listed + if name.value != "" then [EntryFor(ip, name.value)] else []);
      if name.value != "" {
        listed := listed + [EntryFor(ip, name.value)];
      }
    }
    assert sources[..|sources|] == sources;
    return Ok(listed);
  }

  /** Once a prefix raises, the whole list raises with it. */
  lemma {:induction false} SourceListPrefixErr(sources: seq<(string, Json)>, n: nat)
    requires n <= |sources| && SourceList(sources[..n]).Err?
    ensures SourceList(sources) == SourceList(sources[..n])
    decreases |sources| - n
  {
    if n < |sources| {
      assert sources[..n + 1][..n] == sources[..n];
      SourceListPrefixErr(sources, n + 1);
    } else {
      assert sources[..n] == sources;
    }
  }

  // start_detection_route

  /**
   * The RTSP URL of `start_detection_route`: the audio source itself when it
   * starts with `rtsp://`, none otherwise; a source that is not a string
   * (missing is `None`) raises on `startswith`.
   */
  function RtspUrl(audioSource: Json): (r: Result<Option<string>, PyError>)
    ensures r.Err? <==> !audioSource.JStr?
    ensures forall s :: r == Ok(Some(s)) <==> audioSource == JStr(s) && Text.StartsWith(s, "rtsp://")
    ensures r == Ok(None) <==> audioSource.JStr? && !Text.StartsWith(audioSource.s, "rtsp://")
  {
    match audioSource
    case JStr(s) => Ok(if Text.StartsWith(s, "rtsp://") then Some(s) else None)
    case _ => Err(AttributeError)
  }
}
