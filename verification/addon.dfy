/** `scrapy_poet/_addon.py`: the Scrapy add-on that installs scrapy-poet's
    components by editing component settings (ordered dicts from class or
    import path to position). */
module Addon {
  import opened Wrappers
  import opened Scrapy
  import RequestFingerprinter

  /** A key of a component setting: a class, or an import path that
      `load_object` resolves. */
  datatype Component = Cls(cls: Tag) | Path(path: string)

  /** A component setting in insertion order; `None` disables a component. */
  datatype Setting = Setting(keys: seq<Component>, pos: map<Component, Option<int>>)

  /** The keys list holds exactly the mapped keys. */
  ghost predicate Valid(s: Setting) {
    && (forall c :: c in s.pos <==> c in s.keys)
  }

  /** The component settings by name; a missing name reads as `None`. */
  type Components = map<string, Setting>

  ghost predicate AllValid(cs: Components) {
    forall n | n in cs :: Valid(cs[n])
  }

  /** `setting_value[c] = v`: an existing key keeps its place, a new one
      goes last. */
  function Put(s: Setting, c: Component, v: Option<int>): (r: Setting)
    requires Valid(s)
    ensures Valid(r)
    ensures r.pos == s.pos[c := v]
    ensures c in s.pos ==> r.keys == s.keys
    ensures c !in s.pos ==> r.keys == s.keys + [c]
  {
    if c in s.pos then Setting(s.keys, s.pos[c := v]) else Setting(s.keys + [c], s.pos[c := v])
  }

  /** A key that is an import path resolving to `target`. */
  predicate LoadsTo(c: Component, target: Tag, load: string -> Result<Tag, Exc>) {
    c.Path? && load(c.path) == Ok(target)
  }

  /** The loop over the keys that loads every string key, stopping at the
      first that resolves to `target`; a failing `load_object` raises. */
  function FindPath(keys: seq<Component>, target: Tag, load: string -> Result<Tag, Exc>): (r: Result<Option<Component>, Exc>)
    ensures r == Ok(None) <==>
      forall i | 0 <= i < |keys| && keys[i].Path? :: load(keys[i].path).Ok? && load(keys[i].path).value != target
    ensures r.Ok? && r.value.Some? ==> r.value.value in keys && LoadsTo(r.value.value, target, load)
    ensures r.Err? ==> exists i | 0 <= i < |keys| && keys[i].Path? :: load(keys[i].path) == Err(r.error)
  {
    if keys == [] then Ok(None)
    else if keys[0].Cls? then FindPath(keys[1..], target, load)
    else
      match load(keys[0].path)
      case Err(e) => Err(e)
      case Ok(t) => if t == target then Ok(Some(keys[0])) else FindPath(keys[1..], target, load)
  }

  /** `not settings[setting]`. */
  predicate IsEmpty(cs: Components, name: string) {
    name !in cs || cs[name].keys == []
  }

  /** Whether `cls` is in the setting, directly or through a path. */
  predicate Installed(cs: Components, name: string, cls: Tag, load: string -> Result<Tag, Exc>) {
    name in cs && (Cls(cls) in cs[name].pos || exists i | 0 <= i < |cs[name].keys| :: LoadsTo(cs[name].keys[i], cls, load))
  }

  /** `_setdefault(settings, setting, cls, pos)`. */
  function SetDefault(cs: Components, name: string, cls: Tag, pos: int, load: string -> Result<Tag, Exc>)
    : (r: Result<Components, Exc>)
    requires AllValid(cs)
    ensures r.Ok? ==> AllValid(r.value) && r.value.Keys == cs.Keys + {name}
    ensures r.Ok? ==> forall n | n in cs && n != name :: r.value[n] == cs[n]
    ensures IsEmpty(cs, name) ==> r == Ok(cs[name := Setting([Cls(cls)], map[Cls(cls) := Some(pos)])])
    ensures !IsEmpty(cs, name) && Cls(cls) in cs[name].pos ==> r == Ok(cs)
    ensures !IsEmpty(cs, name) && Cls(cls) !in cs[name].pos ==>
      var found := FindPath(cs[name].keys, cls, load);
      && (found.Err? ==> r == Err(found.error))
      && (found.Ok? && found.value.Some? ==> r == Ok(cs))
      && (found == Ok(None) ==>
            && r.Ok?
            && r.value[name].keys == cs[name].keys + [Cls(cls)]
            && r.value[name].pos == cs[name].pos[Cls(cls) := Some(pos)])
    ensures r.Ok? ==> Installed(r.value, name, cls, load)
  {
    if IsEmpty(cs, name) then Ok(cs[name := Setting([Cls(cls)], map[Cls(cls) := Some(pos)])])
    else
      var v := cs[name];
      if Cls(cls) in v.pos then Ok(cs)
      else
        match FindPath(v.keys, cls, load)
        case Err(e) => Err(e)
        case Ok(Some(_)) => Ok(cs)
        case Ok(None) => Ok(cs[name := Put(v, Cls(cls), Some(pos))])
  }

  /** Setting the default a second time changes nothing. */
  lemma SetDefaultIdempotent(cs: Components, name: string, cls: Tag, pos: int, load: string -> Result<Tag, Exc>)
    requires AllValid(cs) && SetDefault(cs, name, cls, pos, load).Ok?
    ensures var once := SetDefault(cs, name, cls, pos, load).value;
      SetDefault(once, name, cls, pos, load) == Ok(once)
  {
    var once := SetDefault(cs, name, cls, pos, load).value;
    if !(Cls(cls) in once[name].pos) {
      var i :| 0 <= i < |once[name].keys| && LoadsTo(once[name].keys[i], cls, load);
      assert load(once[name].keys[i].path).value == cls;
    }
  }

  /** Where the built-in entry is found in one setting: under the class
      itself, else the first path resolving to it. */
  function EntryIn(s: Setting, builtin: Tag, load: string -> Result<Tag, Exc>): (r: Result<Option<Component>, Exc>)
    requires Valid(s)
    ensures Cls(builtin) in s.pos ==> r == Ok(Some(Cls(builtin)))
    ensures Cls(builtin) !in s.pos ==> r == FindPath(s.keys, builtin, load)
    ensures r.Ok? && r.value.Some? ==> r.value.value in s.pos
  {
    if Cls(builtin) in s.pos then Ok(Some(Cls(builtin))) else FindPath(s.keys, builtin, load)
  }

  /** `if builtin_entry:`. Only an empty path is a falsy key. */
  predicate Truthy(c: Component) {
    c != Path("")
  }

  const NotIterableMsg: string := "argument of type 'NoneType' is not iterable"

  /** The search loop of `_replace_builtin`: `setting` first, then
      `setting + "_BASE"`; the entry and its position there. A missing
      `_BASE` setting reads as `None`, which `in` cannot search. */
  function BuiltinEntry(cs: Components, name: string, builtin: Tag, load: string -> Result<Tag, Exc>)
    : (r: Result<Option<(Component, Option<int>)>, Exc>)
    requires AllValid(cs) && name in cs
    ensures r.Ok? && r.value.Some? ==> Truthy(r.value.value.0)
    ensures r.Ok? && r.value.Some? ==>
      var e := r.value.value.0;
      e == Cls(builtin) || LoadsTo(e, builtin, load)
    ensures var here := EntryIn(cs[name], builtin, load);
      here.Ok? && here.value.Some? && Truthy(here.value.value) ==>
        r == Ok(Some((here.value.value, cs[name].pos[here.value.value])))
    ensures var here := EntryIn(cs[name], builtin, load);
      here.Err? ==> r == Err(here.error)
    ensures var here := EntryIn(cs[name], builtin, load);
      here.Ok? && !(here.value.Some? && Truthy(here.value.value)) && name + "_BASE" !in cs ==>
        r == Err(TypeError(NotIterableMsg))
    ensures var here := EntryIn(cs[name], builtin, load);
      here.Ok? && !(here.value.Some? && Truthy(here.value.value)) && name + "_BASE" in cs ==>
        var there := EntryIn(cs[name + "_BASE"], builtin, load);
        && (there.Err? ==> r == Err(there.error))
        && (there.Ok? && there.value.Some? && Truthy(there.value.value) ==>
              r == Ok(Some((there.value.value, cs[name + "_BASE"].pos[there.value.value]))))
        && (there.Ok? && !(there.value.Some? && Truthy(there.value.value)) ==> r == Ok(None))
  {
    var v := cs[name];
    var here :- EntryIn(v, builtin, load);
    if here.Some? && Truthy(here.value) then Ok(Some((here.value, v.pos[here.value])))
    else if name + "_BASE" !in cs then Err(TypeError(NotIterableMsg))
    else
      var base := cs[name + "_BASE"];
      var there :- EntryIn(base, builtin, load);
      if there.Some? && Truthy(there.value) then Ok(Some((there.value, base.pos[there.value])))
      else Ok(None)
  }

  /** The edit at the end of `_replace_builtin`: the built-in entry is
      disabled and the new class takes its position, after every key
      already there. */
  function Replace(cs: Components, name: string, e: Component, c: Component, p: Option<int>): (r: Components)
    requires AllValid(cs) && name in cs && c !in cs[name].pos
    ensures AllValid(r) && r.Keys == cs.Keys
    ensures forall n | n in cs && n != name :: r[n] == cs[n]
    ensures r[name] == Put(Put(cs[name], e, None), c, p)
    ensures r[name].pos == cs[name].pos[e := None][c := p]
    ensures |cs[name].keys| < |r[name].keys| && r[name].keys[..|cs[name].keys|] == cs[name].keys
    ensures r[name].keys[|r[name].keys| - 1] == c
    ensures forall n | n in cs :: cs[n].keys <= r[n].keys
  {
    var twice := Put(Put(cs[name], e, None), c, p);
    PutTwiceKeys(cs[name], e, c, p);
    UpdateValid(cs, name, twice);
    cs[name := twice]
  }

  /** Two puts, the second of a new key: the old keys stay in front and
      the new key comes last. */
  lemma PutTwiceKeys(s: Setting, e: Component, c: Component, p: Option<int>)
    requires Valid(s) && c !in s.pos
    ensures var t := Put(Put(s, e, None), c, p);
      |s.keys| < |t.keys| && t.keys[..|s.keys|] == s.keys && t.keys[|t.keys| - 1] == c && s.keys <= t.keys
  {
    var once := Put(s, e, None);
    var n := |s.keys|;
    if e in s.pos {
      assert once.keys == s.keys;
      assert c !in once.pos;
      assert Put(once, c, p).keys == s.keys + [c];
    } else if c == e {
      assert once.keys == s.keys + [c];
      assert Put(once, c, p).keys == s.keys + [c];
    } else {
      assert once.keys == s.keys + [e];
      assert c !in once.pos;
      assert Put(once, c, p).keys == s.keys + [e] + [c];
      assert (s.keys + [e] + [c])[..n] == s.keys;
    }
  }

  /** Replacing one setting by a valid one keeps all settings valid. */
  lemma UpdateValid(cs: Components, name: string, t: Setting)
    requires AllValid(cs) && Valid(t)
    ensures AllValid(cs[name := t])
  {
  }

  /** `_replace_builtin(settings, setting, builtin_cls, new_cls)`. */
  function ReplaceBuiltin(cs: Components, name: string, builtin: Tag, newCls: Tag, load: string -> Result<Tag, Exc>)
    : (r: Result<Components, Exc>)
    requires AllValid(cs)
    ensures r.Ok? ==> AllValid(r.value) && r.value.Keys == cs.Keys
    ensures r.Ok? ==> forall n | n in cs && n != name :: r.value[n] == cs[n]
    ensures r.Ok? ==> forall n | n in cs :: cs[n].keys <= r.value[n].keys
    ensures IsEmpty(cs, name) ==> r == Ok(cs)
    ensures !IsEmpty(cs, name) && Cls(newCls) in cs[name].pos ==> r == Ok(cs)
    ensures !IsEmpty(cs, name) && Cls(newCls) !in cs[name].pos ==>
      var present := FindPath(cs[name].keys, newCls, load);
      && (present.Err? ==> r == Err(present.error))
      && (present.Ok? && present.value.Some? ==> r == Ok(cs))
      && (present == Ok(None) ==>
            var entry := BuiltinEntry(cs, name, builtin, load);
            && (entry.Err? ==> r == Err(entry.error))
            && (entry == Ok(None) ==> r == Ok(cs))
            && (entry.Ok? && entry.value.Some? && entry.value.value.1.None? ==> r == Ok(cs))
            && (entry.Ok? && entry.value.Some? && entry.value.value.1.Some? ==>
                  var (e, p) := entry.value.value;
                  && r.Ok?
                  && r.value[name] == Put(Put(cs[name], e, None), Cls(newCls), p)
                  && r.value[name].pos == cs[name].pos[e := None][Cls(newCls) := p]
                  && r.value[name].keys[..|cs[name].keys|] == cs[name].keys
                  && r.value[name].keys[|r.value[name].keys| - 1] == Cls(newCls)))
  {
    if IsEmpty(cs, name) then Ok(cs)
    else
      var v := cs[name];
      if Cls(newCls) in v.pos then Ok(cs)
      else
        var present :- FindPath(v.keys, newCls, load);
        if present.Some? then Ok(cs)
        else
          var entry :- BuiltinEntry(cs, name, builtin, load);
          match entry
          case None => Ok(cs)
          case Some((e, p)) =>
            if p.None? then Ok(cs)
            else Ok(Replace(cs, name, e, Cls(newCls), p))
  }

  /** Replacing a second time changes nothing: the new class is present. */
  lemma ReplaceBuiltinIdempotent(cs: Components, name: string, builtin: Tag, newCls: Tag, load: string -> Result<Tag, Exc>)
    requires AllValid(cs) && ReplaceBuiltin(cs, name, builtin, newCls, load).Ok?
    ensures var once := ReplaceBuiltin(cs, name, builtin, newCls, load).value;
      ReplaceBuiltin(once, name, builtin, newCls, load) == Ok(once)
  {
    var once := ReplaceBuiltin(cs, name, builtin, newCls, load).value;
    if once != cs {
      assert Cls(newCls) in once[name].pos;
    }
  }

  /** A component stays installed when its setting only grows at the end. */
  lemma InstalledKept(cs: Components, cs': Components, name: string, cls: Tag, load: string -> Result<Tag, Exc>)
    requires name in cs && name in cs' && Valid(cs[name]) && Valid(cs'[name])
    requires cs[name].keys <= cs'[name].keys
    requires Installed(cs, name, cls, load)
    ensures Installed(cs', name, cls, load)
  {
    var before := cs[name].keys;
    var after := cs'[name].keys;
    if Cls(cls) in cs[name].pos {
      var i :| 0 <= i < |before| && before[i] == Cls(cls);
      assert after[i] == Cls(cls);
    } else {
      var i :| 0 <= i < |before| && LoadsTo(before[i], cls, load);
      assert after[i] == before[i];
    }
  }

  /** A setting with a priority; Scrapy's `addon` priority is 15. */
  datatype Prioritised = Prioritised(value: Tag, priority: int)

  const AddonPriority: int := 15

  /** `settings.set(name, value, priority)`: applied unless the current
      value has a higher priority. */
  function SetWithPriority(current: Option<Prioritised>, value: Tag, priority: int): (r: Option<Prioritised>)
    ensures current.None? || current.value.priority <= priority ==> r == Some(Prioritised(value, priority))
    ensures current.Some? && current.value.priority > priority ==> r == current
  {
    if current.None? || current.value.priority <= priority then Some(Prioritised(value, priority)) else current
  }

  /** The settings the add-on edits. */
  datatype Settings = Settings(fingerprinter: Option<Prioritised>, components: Components)

  const FingerprinterCls: Tag := "scrapy_poet._request_fingerprinter.ScrapyPoetRequestFingerprinter"
  const RetryMiddlewareCls: Tag := "scrapy_poet.spidermiddlewares.RetryMiddleware"
  const DownloaderStatsCls: Tag := "scrapy.downloadermiddlewares.stats.DownloaderStats"
  const DownloaderStatsMiddlewareCls: Tag := "scrapy_poet.downloadermiddlewares.DownloaderStatsMiddleware"
  const DownloaderMiddlewares: string := "DOWNLOADER_MIDDLEWARES"
  const SpiderMiddlewares: string := "SPIDER_MIDDLEWARES"

  /** The settings after `update_settings`, and the exception it raised, if
      any; edits made before the exception stay. */
  datatype Update = Update(settings: Settings, error: Option<Exc>)

  /** `Addon.update_settings`. */
  function UpdateSettings(s: Settings, load: string -> Result<Tag, Exc>): (u: Update)
    requires AllValid(s.components)
    ensures u.settings.fingerprinter == SetWithPriority(s.fingerprinter, FingerprinterCls, AddonPriority)
    ensures AllValid(u.settings.components)
    ensures u.error.None? ==>
      && Installed(u.settings.components, DownloaderMiddlewares, RequestFingerprinter.InjectionMiddlewareCls, load)
      && Installed(u.settings.components, SpiderMiddlewares, RetryMiddlewareCls, load)
    ensures forall n | n in s.components && n != DownloaderMiddlewares && n != SpiderMiddlewares ::
      n in u.settings.components && u.settings.components[n] == s.components[n]
    ensures u.error.None? ==>
      var c2 := SetDefault(s.components, DownloaderMiddlewares, RequestFingerprinter.InjectionMiddlewareCls, 543, load);
      && c2.Ok?
      && var c3 := SetDefault(c2.value, SpiderMiddlewares, RetryMiddlewareCls, 275, load);
      && c3.Ok?
      && ReplaceBuiltin(c3.value, DownloaderMiddlewares, DownloaderStatsCls, DownloaderStatsMiddlewareCls, load) ==
           Ok(u.settings.components)
  {
    var s1 := s.(fingerprinter := SetWithPriority(s.fingerprinter, FingerprinterCls, AddonPriority));
    match SetDefault(s1.components, DownloaderMiddlewares, RequestFingerprinter.InjectionMiddlewareCls, 543, load)
    case Err(e) => Update(s1, Some(e))
    case Ok(c2) =>
      match SetDefault(c2, SpiderMiddlewares, RetryMiddlewareCls, 275, load)
      case Err(e) => Update(s1.(components := c2), Some(e))
      case Ok(c3) =>
        match ReplaceBuiltin(c3, DownloaderMiddlewares, DownloaderStatsCls, DownloaderStatsMiddlewareCls, load)
        case Err(e) => Update(s1.(components := c3), Some(e))
        case Ok(c4) =>
          InstalledKept(c2, c4, DownloaderMiddlewares, RequestFingerprinter.InjectionMiddlewareCls, load);
          InstalledKept(c3, c4, SpiderMiddlewares, RetryMiddlewareCls, load);
          Update(s1.(components := c4), None)
  }

  /** Scrapy's `project` priority. */
  const ProjectPriority: int := 20

  /** The add-on's fingerprinter takes effect exactly when the setting was
      unset or set at a priority no higher than the add-on's; the priority
      afterwards is the higher of the two, so a fingerprinter set in the
      project's settings is kept. */
  lemma FingerprinterByPriority(s: Settings, load: string -> Result<Tag, Exc>)
    requires AllValid(s.components)
    ensures var f := UpdateSettings(s, load).settings.fingerprinter;
      && f.Some?
      && (s.fingerprinter.None? || s.fingerprinter.value.priority <= AddonPriority ==>
            f == Some(Prioritised(FingerprinterCls, AddonPriority)))
      && (s.fingerprinter.Some? && s.fingerprinter.value.priority > AddonPriority ==> f == s.fingerprinter)
      && (s.fingerprinter.Some? ==>
            f.value.priority == if s.fingerprinter.value.priority > AddonPriority then s.fingerprinter.value.priority else AddonPriority)
      && (s.fingerprinter.Some? && s.fingerprinter.value.priority == ProjectPriority ==> f == s.fingerprinter)
  {
  }

  /** Scrapy's `DOWNLOADER_MIDDLEWARES_BASE`, reduced to the stats entry. */
  const StatsBase: Setting := Setting([Cls(DownloaderStatsCls)], map[Cls(DownloaderStatsCls) := Some(850)])
  const FreshProject: Components := map[DownloaderMiddlewares + "_BASE" := StatsBase]
  const InjectionOnly: Setting :=
    Setting([Cls(RequestFingerprinter.InjectionMiddlewareCls)], map[Cls(RequestFingerprinter.InjectionMiddlewareCls) := Some(543)])
  const RetryOnly: Setting := Setting([Cls(RetryMiddlewareCls)], map[Cls(RetryMiddlewareCls) := Some(275)])
  const StatsReplaced: Setting := Setting(
    [Cls(RequestFingerprinter.InjectionMiddlewareCls), Cls(DownloaderStatsCls), Cls(DownloaderStatsMiddlewareCls)],
    map[Cls(RequestFingerprinter.InjectionMiddlewareCls) := Some(543), Cls(DownloaderStatsCls) := None,
        Cls(DownloaderStatsMiddlewareCls) := Some(850)])

  lemma FreshInjection(load: string -> Result<Tag, Exc>)
    ensures SetDefault(FreshProject, DownloaderMiddlewares, RequestFingerprinter.InjectionMiddlewareCls, 543, load) ==
      Ok(FreshProject[DownloaderMiddlewares := InjectionOnly])
  {
    assert DownloaderMiddlewares !in FreshProject by {
      assert |DownloaderMiddlewares| != |DownloaderMiddlewares + "_BASE"|;
    }
  }

  lemma FreshRetry(load: string -> Result<Tag, Exc>)
    ensures var cs := FreshProject[DownloaderMiddlewares := InjectionOnly];
      SetDefault(cs, SpiderMiddlewares, RetryMiddlewareCls, 275, load) == Ok(cs[SpiderMiddlewares := RetryOnly])
  {
    var cs := FreshProject[DownloaderMiddlewares := InjectionOnly];
    assert SpiderMiddlewares !in cs by {
      assert SpiderMiddlewares[0] != DownloaderMiddlewares[0];
    }
  }

  /** The stats entry is found in `DOWNLOADER_MIDDLEWARES_BASE` at 850. */
  lemma FreshStatsEntry(cs: Components, load: string -> Result<Tag, Exc>)
    requires cs == FreshProject[DownloaderMiddlewares := InjectionOnly][SpiderMiddlewares := RetryOnly]
    ensures AllValid(cs) && DownloaderMiddlewares in cs
    ensures cs[DownloaderMiddlewares] == InjectionOnly && !IsEmpty(cs, DownloaderMiddlewares)
    ensures BuiltinEntry(cs, DownloaderMiddlewares, DownloaderStatsCls, load) == Ok(Some((Cls(DownloaderStatsCls), Some(850))))
  {
    assert SpiderMiddlewares != DownloaderMiddlewares by {
      assert SpiderMiddlewares[0] != DownloaderMiddlewares[0];
    }
    assert cs[DownloaderMiddlewares + "_BASE"] == StatsBase;
    assert EntryIn(InjectionOnly, DownloaderStatsCls, load) == Ok(None);
    assert EntryIn(StatsBase, DownloaderStatsCls, load) == Ok(Some(Cls(DownloaderStatsCls)));
  }

  /** Disabling the stats entry and adding the new class after it. */
  lemma FreshStatsPuts()
    ensures Put(Put(InjectionOnly, Cls(DownloaderStatsCls), None), Cls(DownloaderStatsMiddlewareCls), Some(850)) == StatsReplaced
  {
    var inj := RequestFingerprinter.InjectionMiddlewareCls;
    assert Cls(DownloaderStatsCls) != Cls(inj) by {
      assert |DownloaderStatsCls| != |inj|;
    }
    assert Cls(DownloaderStatsMiddlewareCls) != Cls(inj) by {
      assert |DownloaderStatsMiddlewareCls| != |inj|;
    }
    assert Cls(DownloaderStatsMiddlewareCls) != Cls(DownloaderStatsCls) by {
      assert |DownloaderStatsMiddlewareCls| != |DownloaderStatsCls|;
    }
  }

  /** When neither the new class nor a path to it is present and the
      built-in entry has a position, `_replace_builtin` makes the edit. */
  lemma ReplaceBuiltinEdits(
    cs: Components, name: string, builtin: Tag, newCls: Tag, load: string -> Result<Tag, Exc>, e: Component, p: int)
    requires AllValid(cs) && name in cs && !IsEmpty(cs, name)
    requires Cls(newCls) !in cs[name].pos && FindPath(cs[name].keys, newCls, load) == Ok(None)
    requires BuiltinEntry(cs, name, builtin, load) == Ok(Some((e, Some(p))))
    ensures ReplaceBuiltin(cs, name, builtin, newCls, load) == Ok(Replace(cs, name, e, Cls(newCls), Some(p)))
  {
  }

  lemma FreshStats(load: string -> Result<Tag, Exc>)
    ensures var cs := FreshProject[DownloaderMiddlewares := InjectionOnly][SpiderMiddlewares := RetryOnly];
      ReplaceBuiltin(cs, DownloaderMiddlewares, DownloaderStatsCls, DownloaderStatsMiddlewareCls, load) ==
        Ok(cs[DownloaderMiddlewares := StatsReplaced])
  {
    var cs := FreshProject[DownloaderMiddlewares := InjectionOnly][SpiderMiddlewares := RetryOnly];
    FreshStatsEntry(cs, load);
    assert Cls(DownloaderStatsMiddlewareCls) !in cs[DownloaderMiddlewares].pos by {
      assert |DownloaderStatsMiddlewareCls| != |RequestFingerprinter.InjectionMiddlewareCls|;
    }
    assert FindPath(InjectionOnly.keys, DownloaderStatsMiddlewareCls, load) == Ok(None);
    ReplaceBuiltinEdits(cs, DownloaderMiddlewares, DownloaderStatsCls, DownloaderStatsMiddlewareCls, load,
      Cls(DownloaderStatsCls), 850);
    FreshStatsPuts();
  }

  /** On a project that sets neither middleware setting and whose
      `DOWNLOADER_MIDDLEWARES_BASE` enables `DownloaderStats` at 850, the
      add-on installs its middlewares and moves the stats one in place. */
  lemma UpdateSettingsOnDefaults(load: string -> Result<Tag, Exc>, fingerprinter: Option<Prioritised>)
    ensures var u := UpdateSettings(Settings(fingerprinter, FreshProject), load);
      && u.error.None?
      && u.settings.components[DownloaderMiddlewares] == StatsReplaced
      && u.settings.components[SpiderMiddlewares] == RetryOnly
  {
    FreshInjection(load);
    FreshRetry(load);
    FreshStats(load);
  }
}
