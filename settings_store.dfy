/**
 * static/js/modules/settings.js: the browser's copy of the settings. It starts
 * from the page's settings or a built-in default, merges updates section by
 * section, and saves the form's values through the API once they pass a local
 * check. `parseFloat`, `new URL` and the API call are parameters; the session
 * storage is a field holding the last value written to it.
 */
module SettingsStore {
  import opened Outcome
  import opened Json

  /** The settings used when the page provides none. */
  const DefaultSettings: Json := JObj(map[
    "global" := JObj(map["threshold" := JStr("0.5"), "delay" := JStr("1.0")]),
    "microphone" := JObj(map["enabled" := JBool(false), "webhook_url" := JStr(""), "audio_source" := JStr("default")])
  ])

  /**
   * JavaScript member access `v.key`: it throws on `null` and `undefined` (both
   * `JNull` here), reads a field of an object, and is `undefined` for the other
   * values, none of which has the settings' keys.
   */
  function Prop(v: Json, key: string): (r: Option<Json>)
    ensures r.None? <==> v.JNull?
    ensures v.JObj? ==> r == Some(Get(v.fields, key))
  {
    match v
    case JNull => None
    case JObj(m) => Some(Get(m, key))
    case _ => Some(JNull)
  }

  /** `v || {}` */
  function OrEmpty(v: Json): Json
  {
    if Truthy(v) then v else JObj(map[])
  }

  /** `{ ...a.section, ...(b.section || {}) }` for a current value `a` that is never `null`. */
  function MergeSection(current: Json, update: Json, section: string): (r: map<string, Json>)
    requires !current.JNull? && !update.JNull?
    ensures update.JObj? && Truthy(Get(update.fields, section)) && Get(update.fields, section).JObj? ==>
      forall k :: k in Get(update.fields, section).fields ==> k in r && r[k] == Get(update.fields, section).fields[k]
  {
    Spread(Prop(current, section).value) + Spread(OrEmpty(Prop(update, section).value))
  }

  /**
   * The object `updateSettings` builds: the current settings, overridden key by
   * key by the update, except `global` and `microphone`, which are merged one
   * level down.
   */
  function Merge(current: Json, update: Json): (r: Json)
    requires !current.JNull? && !update.JNull?
    ensures r.JObj? && "global" in r.fields && "microphone" in r.fields
    ensures forall k :: k != "global" && k != "microphone" ==>
      (k in r.fields <==> k in Spread(current) || k in Spread(update))
      && (k in Spread(update) ==> r.fields[k] == Spread(update)[k])
      && (k !in Spread(update) && k in Spread(current) ==> r.fields[k] == Spread(current)[k])
    ensures forall s :: s == "global" || s == "microphone" ==>
      r.fields[s] == JObj(Spread(Prop(current, s).value) + Spread(OrEmpty(Prop(update, s).value)))
  {
    JObj((Spread(current) + Spread(update))
      ["global" := JObj(MergeSection(current, update, "global"))]
      ["microphone" := JObj(MergeSection(current, update, "microphone"))])
  }

  /** Merging twice leaves each of the two merged sections as one merge left it. */
  lemma MergeSectionTwice(current: Json, update: Json, s: string)
    requires !current.JNull? && !update.JNull?
    requires s == "global" || s == "microphone"
    ensures Merge(Merge(current, update), update).fields[s] == Merge(current, update).fields[s]
  {
    var once := Merge(current, update);
    var c := Spread(Prop(current, s).value);
    var u := Spread(OrEmpty(Prop(update, s).value));
    assert once.fields[s] == JObj(c + u);
    assert Spread(Prop(once, s).value) == c + u;
    UnionTwice(c, u);
  }

  /** Overriding with the same map twice is overriding once. */
  lemma UnionTwice(a: map<string, Json>, b: map<string, Json>)
    ensures a + b + b == a + b
  {
    assert (a + b + b).Keys == (a + b).Keys;
  }

  /** Merging the same update twice is merging it once. */
  lemma MergeIdempotent(current: Json, update: Json)
    requires !current.JNull? && !update.JNull?
    ensures Merge(Merge(current, update), update) == Merge(current, update)
  {
    var once := Merge(current, update);
    var twice := Merge(once, update);
    MergeSectionTwice(current, update, "global");
    MergeSectionTwice(current, update, "microphone");
    assert twice.fields.Keys == once.fields.Keys;
  }

  /**
   * The browser-side check of `validateSettings` (the one in settings.js):
   * member access on a missing value throws and gives `false`; `parse` is
   * `parseFloat` (`None` for NaN) and `isUrl` whether `new URL` accepts the
   * value.
   */
  function ValidSettings(settings: Json, parse: Json -> Option<real>, isUrl: Json -> bool): (ok: bool)
    ensures ok ==>
      && settings.JObj?
      && var g := Get(settings.fields, "global");
      && !g.JNull?
      && var t := Prop(g, "threshold").value;
      && var d := Prop(g, "delay").value;
      && parse(t).Some? && 0.0 <= parse(t).value <= 1.0
      && parse(d).Some? && 0.0 <= parse(d).value
  {
    match Prop(settings, "global")
    case None => false
    case Some(g) =>
      match Prop(g, "threshold")
      case None => false
      case Some(t) =>
        var threshold := parse(t);
        if threshold.None? || threshold.value < 0.0 || threshold.value > 1.0 then false
        else
          var delay := parse(Prop(g, "delay").value);
          if delay.None? || delay.value < 0.0 then false
          else
            match Prop(settings, "microphone")
            case None => false
            case Some(mic) =>
              match Prop(mic, "enabled")
              case None => false
              case Some(enabled) =>
                if !Truthy(enabled) then true
                else
                  var url := Prop(mic, "webhook_url").value;
                  !Truthy(url) || isUrl(url)
  }

  /** The form's fields as the DOM gives them; `None` is an element that is not on the page. */
  datatype Form = Form(
    threshold: Option<string>,
    delay: Option<string>,
    micEnabled: Option<bool>,
    micUrl: Option<string>,
    micSource: Option<string>)

  /** `element?.value || fallback` */
  function OrText(v: Option<string>, fallback: string): (r: string)
    ensures r == fallback || (v == Some(r) && r != "")
  {
    if v.Some? && v.value != "" then v.value else fallback
  }

  /** The first index of `c` in `s`. */
  function IndexOf(s: string, c: char): (r: Option<nat>)
    ensures r.None? <==> c !in s
    ensures r.Some? ==> r.value < |s| && s[r.value] == c && c !in s[..r.value]
  {
    if s == [] then None
    else if s[0] == c then Some(0)
    else
      match IndexOf(s[1..], c)
      case None => None
      case Some(i) => assert s[..i + 1] == [s[0]] + s[1..][..i]; Some(i + 1)
  }

  /** `s.split('|')[1]`: the text between the first bar and the next one or the end; `undefined` when there is no bar. */
  function SecondPiece(s: string): (r: Option<string>)
    ensures r.None? <==> '|' !in s
    ensures r.Some? ==> '|' !in r.value
  {
    match IndexOf(s, '|')
    case None => None
    case Some(i) =>
      var rest := s[i + 1..];
      match IndexOf(rest, '|')
      case None => Some(rest)
      case Some(j) => Some(rest[..j])
  }

  /** The option value `index|name` of the source list yields its name, whatever follows it after another bar. */
  lemma SecondPieceOf(index: string, name: string, tail: string)
    requires '|' !in index && '|' !in name
    requires tail == [] || tail[0] == '|'
    ensures SecondPiece(index + "|" + name + tail) == Some(name)
  {
    var s := index + "|" + name + tail;
    assert s[|index|] == '|' && s[..|index|] == index;
    assert s[|index| + 1..] == name + tail;
    var rest := name + tail;
    if tail == [] {
      assert rest == name;
    } else {
      assert rest[|name|] == '|' && rest[..|name|] == name;
    }
  }

  /** The settings `saveSettings` reads off the form, with each fallback in place. */
  function FromForm(form: Form): (r: Json)
    ensures r.JObj? && r.fields.Keys == {"global", "microphone"}
  {
    var source := if form.micSource.Some? then SecondPiece(form.micSource.value) else None;
    JObj(map[
      "global" := JObj(map[
        "threshold" := JStr(OrText(form.threshold, "0.5")),
        "delay" := JStr(OrText(form.delay, "1.0"))]),
      "microphone" := JObj(map[
        "enabled" := JBool(form.micEnabled.Some? && form.micEnabled.value),
        "webhook_url" := JStr(OrText(form.micUrl, "")),
        "audio_source" := JStr(OrText(source, "default"))])])
  }

  /**
   * On the settings the form produces, the check holds exactly when the
   * threshold parses into [0, 1], the delay parses to a non-negative number,
   * and an enabled microphone with a URL has one `new URL` accepts.
   */
  lemma ValidFormSettings(form: Form, parse: Json -> Option<real>, isUrl: Json -> bool)
    ensures var t := JStr(OrText(form.threshold, "0.5"));
      var d := JStr(OrText(form.delay, "1.0"));
      var url := OrText(form.micUrl, "");
      ValidSettings(FromForm(form), parse, isUrl) <==>
        && parse(t).Some? && 0.0 <= parse(t).value <= 1.0
        && parse(d).Some? && 0.0 <= parse(d).value
        && (form.micEnabled == Some(true) && url != "" ==> isUrl(JStr(url)))
  {
  }

  class Store {
    /** `currentSettings` */
    var current: Json
    /** the last value this module wrote to `sessionStorage` under `claptrap_settings` (`None` before any write) */
    var stored: Option<Json>
    /** the bodies posted to `/api/settings/save`, oldest first */
    var posted: seq<Json>

    /** The current settings are never `null`. */
    ghost predicate Valid()
      reads this
    {
      !current.JNull?
    }

    /**
     * The module's load: a deep copy of the page's settings when they are
     * truthy, the default otherwise; then the session's saved settings, if any
     * parse, go through `updateSettings`.
     */
    constructor (pageSettings: Json, saved: Option<Json>)
      ensures Valid()
      ensures var start := if Truthy(pageSettings) then pageSettings else DefaultSettings;
        if saved.Some? && !saved.value.JNull?
        then current == Merge(start, saved.value) && stored == Some(current)
        else current == start && stored == None
      ensures posted == []
    {
      current := if Truthy(pageSettings) then pageSettings else DefaultSettings;
      stored := None;
      posted := [];
      new;
      if saved.Some? {
        UpdateSettings(saved.value);
      }
    }

    /** `getCurrentSettings`: a deep copy, equal to the current settings. */
    method GetCurrentSettings() returns (r: Json)
      requires Valid()
      ensures r == current && !r.JNull?
    {
      r := current;
    }

    /**
     * `updateSettings`: a `null` update throws on `newSettings.global`, which is
     * caught, and nothing changes; otherwise the merge becomes current and is
     * written to the session storage.
     */
    method UpdateSettings(update: Json)
      requires Valid()
      modifies this
      ensures Valid()
      ensures update.JNull? ==> current == old(current) && stored == old(stored)
      ensures !update.JNull? ==> current == Merge(old(current), update) && stored == Some(current)
      ensures posted == old(posted)
    {
      if update.JNull? {
        return;
      }
      current := Merge(current, update);
      stored := Some(current);
    }

    /**
     * `saveSettings`: the form's settings are checked locally; when they pass
     * they are posted, and only a response with `success` (`response` is `None`
     * when the call throws) makes them current.
     */
    method SaveSettings(form: Form, parse: Json -> Option<real>, isUrl: Json -> bool, response: Option<bool>)
      returns (ok: bool)
      requires Valid()
      modifies this
      ensures Valid()
      ensures var settings := FromForm(form);
        && (ok <==> ValidSettings(settings, parse, isUrl) && response == Some(true))
        && posted == old(posted) + (if ValidSettings(settings, parse, isUrl) then [settings] else [])
        && (ok ==> current == Merge(old(current), settings) && stored == Some(current))
        && (!ok ==> current == old(current) && stored == old(stored))
    {
      var settings := FromForm(form);
      if !ValidSettings(settings, parse, isUrl) {
        return false;
      }
      posted := posted + [settings];
      if response != Some(true) {
        return false;
      }
      UpdateSettings(settings);
      ok := true;
    }
  }
}
