/**
 * autorobot/app.py: `ExtendedRobotApp`, the wrapper around the host's
 * `RobotApplication`, and the module-level `app` that `initialize` sets and `quit` clears.
 *
 * The host application is reduced to the state the wrapper touches: its visibility, the
 * option it was quit with, the project type it was asked to create, its project file name
 * and saves, the attributes it offers, and its answer to a licence entitlement check.
 */
module App {
  import opened Errors
  import Constants
  import Synonyms

  type EnumValue = Constants.EnumValue
  type PyValue = Synonyms.PyValue

  /**
   * The module-level values app.py reads: the `synonyms` table, `RQuitOpt.PROMPT`, `SAVE`
   * and `DISCARD`, the licences `iter(RLicense)` yields, and `RLicenseStatus.OK`.
   */
  datatype AppEnv = AppEnv(
    synonyms: Synonyms.ColanderDict,
    prompt: EnumValue, save: EnumValue, discard: EnumValue,
    licenses: seq<EnumValue>,
    ok: EnumValue)

  /** The values as constants.py and synonyms.py build them from the alias tables `k`. */
  function AppEnvOf(k: Constants.Tables): (env: AppEnv)
    requires Constants.Loaded(k)
    ensures forall v :: v in env.synonyms.Values ==> v !in env.synonyms
    ensures env.licenses == Constants.Iterate(k.license)
  {
    Constants.LoadedKeys(k);
    AppEnv(Synonyms.SynonymTable(k),
           k.quitOpt.index["PROMPT"], k.quitOpt.index["SAVE"], k.quitOpt.index["DISCARD"],
           Constants.Iterate(k.license),
           k.licenseStatus.index["OK"])
  }

  /** `quit(save)`'s choice of quit option: `None` prompts, a true value saves, a false one discards. */
  function QuitOption(env: AppEnv, save: Option<bool>): (q: EnumValue)
    ensures save.None? ==> q == env.prompt
    ensures save == Some(true) ==> q == env.save
    ensures save == Some(false) ==> q == env.discard
  {
    match save
    case None => env.prompt
    case Some(true) => env.save
    case Some(false) => env.discard
  }

  /** The three choices reach the host as three different options, so each can be told from the others. */
  lemma QuitOptionsDistinct(env: AppEnv, a: Option<bool>, b: Option<bool>)
    requires env.prompt != env.save && env.save != env.discard && env.prompt != env.discard
    ensures QuitOption(env, a) == QuitOption(env, b) <==> a == b
  {
  }

  /**
   * `any(LicenseCheckEntitlement(lic) == RLicenseStatus.OK for lic in licenses)`, with
   * `check` the host's entitlement check.
   */
  function HasLicense(licenses: seq<EnumValue>, check: EnumValue -> EnumValue, ok: EnumValue): (r: bool)
    ensures r <==> exists i :: 0 <= i < |licenses| && check(licenses[i]) == ok
  {
    if licenses == [] then false
    else if check(licenses[0]) == ok then true
    else
      var rest := HasLicense(licenses[1..], check, ok);
      assert rest <==> exists i :: 1 <= i < |licenses| && check(licenses[i]) == ok by {
        if rest {
          var j :| 0 <= j < |licenses[1..]| && check(licenses[1..][j]) == ok;
          assert check(licenses[j + 1]) == ok;
        }
      }
      rest
  }

  /**
   * `has_license` asks about every licence of the table: it holds iff some value stored in
   * `RLicense` is entitled, although iteration yields only one value per code.
   */
  lemma LicenseOverTable(t: Constants.AliasTable, check: EnumValue -> EnumValue, ok: EnumValue)
    requires Constants.ValidTable(t)
    ensures HasLicense(Constants.Iterate(t), check, ok) <==> exists n :: n in t.index && check(t.index[n]) == ok
  {
    Constants.IterationDistinctCodes(t);
    Constants.MemberType(t);
    if HasLicense(Constants.Iterate(t), check, ok) {
      IteratedIsStored(t, check, ok);
    }
    if exists n :: n in t.index && check(t.index[n]) == ok {
      var n :| n in t.index && check(t.index[n]) == ok;
      StoredIsIterated(t, n);
    }
  }

  /** A value iteration yields is the value stored under some key. */
  lemma IteratedIsStored(t: Constants.AliasTable, check: EnumValue -> EnumValue, ok: EnumValue)
    requires Constants.ValidTable(t)
    requires Constants.Codes(Constants.Iterate(t)) == Constants.IndexCodes(t)
    requires forall v :: v in Constants.Iterate(t) ==> v.kind == t.source.kind
    requires forall k :: k in t.index ==> t.index[k].kind == t.source.kind
    requires HasLicense(Constants.Iterate(t), check, ok)
    ensures exists n :: n in t.index && check(t.index[n]) == ok
  {
    var it := Constants.Iterate(t);
    var i :| 0 <= i < |it| && check(it[i]) == ok;
    assert it[i].code in Constants.Codes(it);
    var n :| n in t.index && t.index[n].code == it[i].code;
    assert t.index[n] == it[i];
  }

  /** The value stored under a key is yielded by iteration. */
  lemma StoredIsIterated(t: Constants.AliasTable, n: string)
    requires Constants.ValidTable(t) && n in t.index
    requires Constants.Codes(Constants.Iterate(t)) == Constants.IndexCodes(t)
    requires forall v :: v in Constants.Iterate(t) ==> v.kind == t.source.kind
    requires forall k :: k in t.index ==> t.index[k].kind == t.source.kind
    ensures t.index[n] in Constants.Iterate(t)
  {
    var it := Constants.Iterate(t);
    assert t.index[n].code in Constants.IndexCodes(t);
    var v :| v in it && v.code == t.index[n].code;
    assert v == t.index[n];
  }

  /** `new(proj_type)`: the host creates a project of `synonyms[proj_type]`; any failure becomes AutoRobotProjError. */
  function NewProject(synonyms: Synonyms.ColanderDict, accepted: set<PyValue>, projType: PyValue): (r: Result<PyValue>)
    ensures r.Ok? <==> Synonyms.Lookup(synonyms, projType) in accepted
    ensures r.Ok? ==> r.value == Synonyms.Lookup(synonyms, projType)
    ensures r.Err? ==> r.error == ProjError
  {
    var resolved := Synonyms.Lookup(synonyms, projType);
    if resolved in accepted then Ok(resolved) else Err(ProjError)
  }

  /** A short name and the constant it stands for create the same project. */
  lemma NewBySynonym(synonyms: Synonyms.ColanderDict, accepted: set<PyValue>, projType: PyValue)
    requires forall v :: v in synonyms.Values ==> v !in synonyms
    ensures NewProject(synonyms, accepted, projType) == NewProject(synonyms, accepted, Synonyms.Lookup(synonyms, projType))
  {
    Synonyms.LookupIdempotent(synonyms, projType);
  }

  /** The attributes `ExtendedRobotApp` defines itself, which never reach `__getattr__`. */
  const WrapperMembers: set<string> := {
    "bars", "cases", "geom", "materials", "sections", "supports", "releases", "nodes",
    "selections", "structure", "has_license", "close", "new", "open", "quit", "save",
    "save_as", "show", "hide"}

  /** What an attribute of the wrapper is: its own, the host application, or an attribute forwarded from the host. */
  datatype Attribute = Own(name: string) | HostApp | Forwarded(handle: int)

  /**
   * Attribute lookup on the wrapper, with `host` the host's attributes (each an opaque
   * handle), or `None` once `quit` deleted `self.app`. The wrapper's own members come first,
   * then `self.app`; any other name goes to `__getattr__`, which forwards it if the host has
   * it and raises AttributeError otherwise. Without `self.app`, `__getattr__` looks up
   * `self.app` through itself and recursion runs out.
   */
  function Lookup(host: Option<map<string, int>>, name: string): (r: Result<Attribute>)
    ensures name in WrapperMembers ==> r == Ok(Own(name))
    ensures name !in WrapperMembers && host.None? ==> r == Err(RecursionError)
    ensures name !in WrapperMembers && host.Some? ==>
      && (r.Ok? <==> name == "app" || name in host.value)
      && (name == "app" ==> r == Ok(HostApp))
      && (name != "app" && name in host.value ==> r == Ok(Forwarded(host.value[name])))
      && (r.Err? ==> r.error == AttributeError(name))
  {
    if name in WrapperMembers then Ok(Own(name))
    else if host.None? then Err(RecursionError)
    else if name == "app" then Ok(HostApp)
    else if name in host.value then Ok(Forwarded(host.value[name]))
    else Err(AttributeError(name))
  }

  /** The host `RobotApplication`, reduced to the state the wrapper reads and writes. */
  class Host {
    var visible: bool
    var interactive: bool
    var quitWith: Option<EnumValue>
    var project: Option<PyValue>
    var saves: nat
    const fileName: string
    const members: map<string, int>
    const projectTypes: set<PyValue>
    const entitlement: EnumValue -> EnumValue

    constructor (fileName: string, members: map<string, int>, projectTypes: set<PyValue>,
                 entitlement: EnumValue -> EnumValue)
      ensures !visible && !interactive && quitWith.None? && project.None? && saves == 0
      ensures this.fileName == fileName && this.members == members
      ensures this.projectTypes == projectTypes && this.entitlement == entitlement
    {
      visible, interactive, quitWith, project, saves := false, false, None, None, 0;
      this.fileName, this.members := fileName, members;
      this.projectTypes, this.entitlement := projectTypes, entitlement;
    }
  }

  /** The module autorobot.app, holding the module-level `app`. */
  class AppModule {
    var app: RobotApp?

    constructor ()
      ensures app == null
    {
      app := null;
    }
  }

  /** `ExtendedRobotApp`: `app` is its `self.app`, null once `quit` deleted it. */
  class RobotApp {
    var app: Host?
    const home: AppModule

    constructor (host: Host, home: AppModule)
      ensures app == host && this.home == home
    {
      app, this.home := host, home;
    }

    /** `getattr(wrapper, name)`. */
    function GetAttr(name: string): (r: Result<Attribute>)
      reads this
      ensures r == Lookup(if app == null then None else Some(app.members), name)
    {
      Lookup(if app == null then None else Some(app.members), name)
    }

    /** `has_license`, which reaches the host's `LicenseCheckEntitlement` through `__getattr__`. */
    function License(env: AppEnv): (r: Result<bool>)
      reads this
      ensures app == null ==> r == Err(RecursionError)
      ensures app != null ==> r == Ok(HasLicense(env.licenses, app.entitlement, env.ok))
    {
      if app == null then Err(RecursionError) else Ok(HasLicense(env.licenses, app.entitlement, env.ok))
    }

    /**
     * `quit(save)`: the host quits with the chosen option, then `self.app` is deleted and the
     * module-level `app` cleared. Without `self.app`, looking up `self.Quit` recurses
     * without end and nothing changes.
     */
    method Quit(env: AppEnv, save: Option<bool>) returns (r: Result<()>)
      modifies this, home, app
      ensures old(app) == null ==> r == Err(RecursionError) && app == null && home.app == old(home.app)
      ensures old(app) != null ==>
        && r == Ok(())
        && old(app).quitWith == Some(QuitOption(env, save))
        && app == null && home.app == null
        && old(app).visible == old(app.visible) && old(app).interactive == old(app.interactive)
        && old(app).project == old(app.project) && old(app).saves == old(app.saves)
    {
      if app == null {
        return Err(RecursionError);
      }
      if save.None? {
        app.quitWith := Some(env.prompt);
      } else if save.value {
        app.quitWith := Some(env.save);
      } else {
        app.quitWith := Some(env.discard);
      }
      app := null;
      home.app := null;
      r := Ok(());
    }

    /** `save()`: saves and returns true when the project has a file name, else returns false and does nothing. */
    method Save() returns (r: Result<bool>)
      modifies app
      ensures app == null ==> r == Err(RecursionError)
      ensures app != null ==>
        && r == Ok(app.fileName != "")
        && app.saves == old(app.saves) + (if app.fileName != "" then 1 else 0)
        && app.visible == old(app.visible) && app.interactive == old(app.interactive)
        && app.quitWith == old(app.quitWith) && app.project == old(app.project)
    {
      if app == null {
        return Err(RecursionError);
      }
      if app.fileName != "" {
        app.saves := app.saves + 1;
        return Ok(true);
      }
      r := Ok(false);
    }

    /** `show(interactive)`: Visible becomes true and Interactive `interactive`. */
    method Show(interactive: bool) returns (r: Result<()>)
      modifies app
      ensures app == null ==> r == Err(RecursionError)
      ensures app != null ==>
        && r == Ok(())
        && app.visible && app.interactive == interactive
        && app.quitWith == old(app.quitWith) && app.project == old(app.project) && app.saves == old(app.saves)
    {
      if app == null {
        return Err(RecursionError);
      }
      app.visible := true;
      app.interactive := interactive;
      r := Ok(());
    }

    /** `hide()`: Visible and Interactive both become false. */
    method Hide() returns (r: Result<()>)
      modifies app
      ensures app == null ==> r == Err(RecursionError)
      ensures app != null ==>
        && r == Ok(())
        && !app.visible && !app.interactive
        && app.quitWith == old(app.quitWith) && app.project == old(app.project) && app.saves == old(app.saves)
    {
      if app == null {
        return Err(RecursionError);
      }
      app.visible := false;
      app.interactive := false;
      r := Ok(());
    }

    /**
     * `new(proj_type)`. The whole call sits in `try ... except Exception`, so even the
     * recursion of a deleted `self.app` surfaces as AutoRobotProjError.
     */
    method New(env: AppEnv, projType: PyValue) returns (r: Result<()>)
      modifies app
      ensures app == null ==> r == Err(ProjError)
      ensures app != null ==>
        && var created := NewProject(env.synonyms, app.projectTypes, projType);
        && (r.Ok? <==> created.Ok?)
        && (r.Err? ==> r.error == ProjError && app.project == old(app.project))
        && (r.Ok? ==> app.project == Some(created.value))
        && app.visible == old(app.visible) && app.interactive == old(app.interactive)
        && app.quitWith == old(app.quitWith) && app.saves == old(app.saves)
    {
      if app == null {
        return Err(ProjError);
      }
      var created := NewProject(env.synonyms, app.projectTypes, projType);
      if created.Err? {
        return Err(ProjError);
      }
      app.project := Some(created.value);
      r := Ok(());
    }
  }

  /**
   * `ExtendedRobotApp(visible, interactive)` on a freshly started `host`: without a licence
   * the host is quit discarding changes, the module-level `app` is cleared and
   * AutoRobotLicenseError raised; otherwise the window is shown with `interactive` or hidden.
   */
  method Start(env: AppEnv, home: AppModule, host: Host, visible: bool, interactive: bool)
    returns (r: Result<RobotApp>)
    modifies home, host
    ensures r.Err? <==> !HasLicense(env.licenses, host.entitlement, env.ok)
    ensures r.Err? ==>
      && r.error == LicenseError
      && host.quitWith == Some(env.discard) && home.app == null
      && host.visible == old(host.visible) && host.interactive == old(host.interactive)
    ensures r.Ok? ==>
      && fresh(r.value) && r.value.app == host && r.value.home == home
      && host.visible == visible && host.interactive == (visible && interactive)
      && host.quitWith == old(host.quitWith) && home.app == old(home.app)
    ensures host.project == old(host.project) && host.saves == old(host.saves)
  {
    var a := new RobotApp(host, home);
    var licensed := a.License(env);
    if !licensed.value {
      var _ := a.Quit(env, Some(false));
      return Err(LicenseError);
    }
    if visible {
      var _ := a.Show(interactive);
    } else {
      var _ := a.Hide();
    }
    r := Ok(a);
  }

  /** `initialize(visible, interactive)`: the new wrapper becomes the module-level `app` and is returned. */
  method Initialize(env: AppEnv, home: AppModule, host: Host, visible: bool, interactive: bool)
    returns (r: Result<RobotApp>)
    modifies home, host
    ensures r.Err? <==> !HasLicense(env.licenses, host.entitlement, env.ok)
    ensures r.Err? ==> r.error == LicenseError && home.app == null && host.quitWith == Some(env.discard)
    ensures r.Ok? ==>
      && fresh(r.value) && home.app == r.value && r.value.app == host && r.value.home == home
      && host.visible == visible && host.interactive == (visible && interactive)
      && host.quitWith == old(host.quitWith)
  {
    r := Start(env, home, host, visible, interactive);
    if r.Ok? {
      home.app := r.value;
    }
  }
}
