/**
 * The Community Action reporting plugin (`Report`): a registry of program
 * names, a table that enrolls surveys in programs, the survey-settings
 * descriptor built from both, and the superadmin-gated request dispatcher.
 *
 * The host database is abstracted as two in-memory tables held by the
 * plugin object; `findAll` is taken to return rows in insertion order.
 */
module CommunityAction {
  import opened PhpArray

  /** `$defaultProgram`: seeded on activation and shown when a survey has no program. */
  const DefaultProgram: string := "Select a Program..."
  /** The permission value that grants access to the plugin's pages. */
  const SuperAdmin: string := "superadmin"
  /** The survey setting the plugin contributes, and the table it is stored in. */
  const EnrollmentSetting: string := "program_enrollment"
  /** The only action a direct request may name. */
  const ManageProgramsAction: string := "managePrograms"
  /** Where a caller without the superadmin permission is sent. */
  const LoginRoute: string := "/admin/authentication/sa/login"
  /** `get_class($this)`: the plugin name placed in the settings descriptor. */
  const PluginName: string := "Report"

  /** The add-program form printed above the program list. */
  const AddProgramForm: string :=
    "<h5>Add a Program:</h5>\n" +
    "<form name=\"addProgram\" method=\"GET\" action=\"direct\">\n" +
    "<input type=\"text\" name=\"plugin\" value=\"Report\" style=\"display: none\">\n" +
    "<input type=\"text\" name=\"function\" value=\"managePrograms\" style=\"display: none\">\n" +
    "<input type=\"text\" name=\"program\">\n" +
    "<input type=\"submit\" value=\"Submit\">\n" +
    "</form>\n" +
    "<h5>Programs:</h5>"

  /** A row of the `programs` table; `id` is its auto-increment primary key. */
  datatype ProgramRow = ProgramRow(id: nat, programName: string)

  /** A row of the `program_enrollment` table. */
  datatype EnrollmentRow = EnrollmentRow(surveyId: int, programName: string)

  /**
   * What `getPermissionSet` returns for the current user: permission
   * records by index, each a record of named fields.
   */
  type PermissionSet = map<int, map<string, string>>

  /** What a direct request produces: a redirect, page content (with the flash notice it raised), or a refused action name. */
  datatype Outcome =
    | Redirect(route: string)
    | Content(body: string, notice: Option<string>)
    | UnknownAction(name: string)

  /** The `surveysettings` entry handed to the host's settings page. */
  datatype SettingsDescriptor = SettingsDescriptor(
    name: string,
    setting: string,
    kind: string,
    options: seq<(string, string)>,
    current: string)

  predicate Distinct(ps: seq<string>)
  {
    forall i, j :: 0 <= i < j < |ps| ==> ps[i] != ps[j]
  }

  /** The names of the program rows, in table order. */
  function Names(rows: seq<ProgramRow>): seq<string>
  {
    seq(|rows|, i requires 0 <= i < |rows| => rows[i].programName)
  }

  /** The flash message raised when a name is already registered; it quotes the name verbatim. */
  function DuplicateNotice(p: string): (s: string)
    ensures |s| == |p| + 31
    ensures s[..14] == "The program: '" && s[14 + |p|..] == "' already exists."
    ensures s[14..14 + |p|] == p
  {
    "The program: '" + p + "' already exists."
  }

  // ---------------------------------------------------------------------
  // Authorization gate

  /**
   * `isSuperAdmin`: the caller is authorized exactly when its second
   * permission record (index 1) has a `permission` field equal to
   * "superadmin"; a missing record or field is a refusal.
   */
  function IsSuperAdmin(perms: PermissionSet): (b: bool)
    ensures b ==> 1 in perms && "permission" in perms[1]
    ensures b <==> Some(SuperAdmin) == PermissionOf(perms)
  {
    1 in perms && "permission" in perms[1] && perms[1]["permission"] == SuperAdmin
  }

  /** The permission value recorded for the caller, if any. */
  function PermissionOf(perms: PermissionSet): Option<string>
  {
    if 1 in perms && "permission" in perms[1] then Some(perms[1]["permission"]) else None
  }

  // ---------------------------------------------------------------------
  // Rendering of the program list

  function Item(p: string): string
  {
    "<li>" + p + "</li>"
  }

  /** One `<li>` item per program, first program first. */
  function RenderList(ps: seq<string>): string
  {
    if ps == [] then "" else Item(ps[0]) + RenderList(ps[1..])
  }

  /** The page `managePrograms` returns for a given program list: the form, then the list. */
  function Page(ps: seq<string>): string
  {
    AddProgramForm + "<ul>" + RenderList(ps) + "</ul>"
  }

  /** The list is empty exactly when there are no programs; otherwise it opens with `<li>` and closes with `</li>`. */
  lemma {:induction false} RenderListShape(ps: seq<string>)
    ensures RenderList(ps) == "" <==> ps == []
    ensures ps != [] ==> |RenderList(ps)| >= 9 && RenderList(ps)[..4] == "<li>" &&
                         RenderList(ps)[|RenderList(ps)| - 5..] == "</li>"
  {
    if ps != [] {
      var rest := RenderList(ps[1..]);
      RenderListShape(ps[1..]);
      assert RenderList(ps) == "<li>" + ps[0] + "</li>" + rest;
    }
  }

  /** The page is the add-program form, `<ul>`, the list, then `</ul>`: a bare `<ul></ul>` when there are no programs. */
  lemma PageShape(ps: seq<string>)
    ensures AddProgramForm + "<ul>" <= Page(ps)
    ensures |Page(ps)| == |AddProgramForm| + 9 + |RenderList(ps)|
    ensures Page(ps)[|Page(ps)| - 5..] == "</ul>"
    ensures ps == [] ==> Page(ps) == AddProgramForm + "<ul></ul>"
  {
    var list := RenderList(ps);
    assert Page(ps) == (AddProgramForm + "<ul>") + (list + "</ul>");
  }

  /** Rendering distributes over concatenation of program lists. */
  lemma {:induction false} RenderListAppend(a: seq<string>, b: seq<string>)
    ensures RenderList(a + b) == RenderList(a) + RenderList(b)
  {
    if a == [] {
      assert a + b == b;
    } else {
      assert (a + b)[0] == a[0];
      assert (a + b)[1..] == a[1..] + b;
      RenderListAppend(a[1..], b);
    }
  }

  /** A name appended to the registry shows up as the last item of the list. */
  lemma NewestIsLastItem(ps: seq<string>, p: string)
    ensures RenderList(ps + [p]) == RenderList(ps) + Item(p)
  {
    RenderListAppend(ps, [p]);
    assert RenderList([p]) == Item(p) + RenderList([]);
  }

  /**
   * The rendering half of `managePrograms`: the `foreach` that
   * concatenates one item per program, then the form and the list.
   */
  method RenderPrograms(ps: seq<string>) returns (content: string)
    ensures content == Page(ps)
  {
    var list := "";
    var i := 0;
    while i < |ps|
      invariant 0 <= i <= |ps|
      invariant list == RenderList(ps[..i])
    {
      NewestIsLastItem(ps[..i], ps[i]);
      assert ps[..i + 1] == ps[..i] + [ps[i]];
      list := list + "<li>" + ps[i] + "</li>";
      i := i + 1;
    }
    assert ps[..i] == ps;
    assert list == RenderList(ps);
    content := AddProgramForm + "<ul>" + list + "</ul>";
  }

  // ---------------------------------------------------------------------
  // Enrollment rows

  /**
   * The program a survey is currently enrolled in: that of the LAST
   * enrollment row for the survey, or nothing when it has none.
   */
  function LatestProgram(rows: seq<EnrollmentRow>, sid: int): (r: Option<string>)
    ensures r.None? <==> forall i :: 0 <= i < |rows| ==> rows[i].surveyId != sid
    ensures r.Some? ==> exists i :: 0 <= i < |rows| && rows[i] == EnrollmentRow(sid, r.value) &&
                                    forall j :: i < j < |rows| ==> rows[j].surveyId != sid
  {
    if rows == [] then None
    else if rows[|rows| - 1].surveyId == sid then Some(rows[|rows| - 1].programName)
    else LatestProgram(rows[..|rows| - 1], sid)
  }

  /** `findAll('survey_id=:sid')`: the rows of one survey, in insertion order. */
  function RowsOf(rows: seq<EnrollmentRow>, sid: int): (r: seq<EnrollmentRow>)
    ensures |r| <= |rows|
    ensures forall e :: e in r <==> e in rows && e.surveyId == sid
  {
    if rows == [] then []
    else RowsOf(rows[..|rows| - 1], sid) +
         (if rows[|rows| - 1].surveyId == sid then [rows[|rows| - 1]] else [])
  }

  /** The `survey_id => programName` pairs `listData` is built from. */
  function SurveyPairs(rows: seq<EnrollmentRow>): seq<(int, string)>
  {
    seq(|rows|, i requires 0 <= i < |rows| => (rows[i].surveyId, rows[i].programName))
  }

  /** Querying one survey's rows and keying them by survey id keeps the last row's program. */
  lemma {:induction false} RowsOfLatest(rows: seq<EnrollmentRow>, sid: int)
    ensures LastValue(SurveyPairs(RowsOf(rows, sid)), sid) == LatestProgram(rows, sid)
    ensures RowsOf(rows, sid) == [] <==> LatestProgram(rows, sid).None?
  {
    if rows != [] {
      var init := rows[..|rows| - 1];
      var last := rows[|rows| - 1];
      RowsOfLatest(init, sid);
      if last.surveyId == sid {
        var ps := SurveyPairs(RowsOf(rows, sid));
        assert ps[|ps| - 1] == (sid, last.programName);
      } else {
        assert RowsOf(rows, sid) == RowsOf(init, sid);
      }
    }
  }

  /** The enrollment rows `newSurveySettings` writes: one per settings pair, in order, whatever its name. */
  function SettingsRows(sid: int, settings: seq<(string, string)>): (r: seq<EnrollmentRow>)
    ensures |r| == |settings|
    ensures forall e :: e in r ==> e.surveyId == sid
    ensures forall i :: 0 <= i < |settings| ==> r[i].programName == Values(settings)[i]
  {
    seq(|settings|, i requires 0 <= i < |settings| => EnrollmentRow(sid, settings[i].1))
  }

  /**
   * PHP truthiness of a string: only "" and "0" are false. The condition
   * `$name = "program_enrollment"` evaluates to the assigned string.
   */
  predicate Truthy(s: string)
  {
    s != "" && s != "0"
  }

  /**
   * Saving settings for a survey makes its current program the value of the
   * last pair saved, and leaves every other survey's current program alone.
   */
  lemma {:induction false} LatestAfterSave(rows: seq<EnrollmentRow>, sid: int,
                                            settings: seq<(string, string)>, other: int)
    ensures LatestProgram(rows + SettingsRows(sid, settings), sid) ==
            if settings == [] then LatestProgram(rows, sid) else Some(settings[|settings| - 1].1)
    ensures other != sid ==>
            LatestProgram(rows + SettingsRows(sid, settings), other) == LatestProgram(rows, other)
  {
    if settings != [] {
      var init := settings[..|settings| - 1];
      LatestAfterSave(rows, sid, init, other);
      assert rows + SettingsRows(sid, settings) ==
             (rows + SettingsRows(sid, init)) + [EnrollmentRow(sid, settings[|settings| - 1].1)];
    } else {
      assert rows + SettingsRows(sid, settings) == rows;
    }
  }

  // ---------------------------------------------------------------------
  // The plugin object and its two tables

  class Report {
    /** The `programs` table. */
    var programRows: seq<ProgramRow>
    /** The id the next inserted program row receives. */
    var nextId: nat
    /** The `program_enrollment` table. */
    var enrollments: seq<EnrollmentRow>

    /**
     * Ids are assigned in increasing order and stay below `nextId`; no
     * program name is empty (every insert path checks or supplies a name).
     */
    ghost predicate Valid()
      reads this
    {
      (forall i :: 0 <= i < |programRows| ==>
         programRows[i].id < nextId && programRows[i].programName != "") &&
      (forall i, j :: 0 <= i < j < |programRows| ==> programRows[i].id < programRows[j].id)
    }

    /** The registered program names, in insertion order. */
    function Programs(): seq<string>
      reads this
    {
      Names(programRows)
    }

    constructor ()
      ensures Valid()
      ensures Programs() == [] && enrollments == []
    {
      programRows := [];
      nextId := 1;
      enrollments := [];
    }

    /**
     * `getPrograms`: `listData` keyed by row id. Because ids are distinct,
     * no row is lost: the result is every program name in table order.
     */
    function GetPrograms(): (r: seq<string>)
      reads this
      requires Valid()
      ensures r == Programs()
    {
      var pairs := seq(|programRows|, i requires 0 <= i < |programRows| reads this =>
                         (programRows[i].id, programRows[i].programName));
      ListDataOfUniqueKeys(pairs);
      Values(ListData(pairs))
    }

    /** `saveProgram`: insert a row with the next id. */
    method SaveProgram(name: string)
      requires Valid() && name != ""
      modifies this
      ensures Valid()
      ensures programRows == old(programRows) + [ProgramRow(old(nextId), name)]
      ensures nextId == old(nextId) + 1
      ensures Programs() == old(Programs()) + [name]
      ensures enrollments == old(enrollments)
    {
      programRows := programRows + [ProgramRow(nextId, name)];
      nextId := nextId + 1;
    }

    /**
     * The seeding step of `beforeActivate`: an empty registry receives the
     * default program; a non-empty one is left as it is. Since the registry
     * is non-empty afterwards, a second activation changes nothing.
     */
    method Activate()
      requires Valid()
      modifies this
      ensures Valid()
      ensures old(Programs()) == [] ==> Programs() == [DefaultProgram]
      ensures old(Programs()) != [] ==> programRows == old(programRows) && nextId == old(nextId)
      ensures Programs() != []
      ensures Distinct(old(Programs())) ==> Distinct(Programs())
      ensures enrollments == old(enrollments)
    {
      var existing := GetPrograms();
      if existing == [] {
        SaveProgram(DefaultProgram);
      }
    }

    /**
     * `managePrograms`: add `programToAdd` when it is non-empty and not yet
     * registered, raise the duplicate notice when it is registered, then
     * render the refreshed list. An absent parameter is passed as "".
     */
    method ManagePrograms(programToAdd: string) returns (content: string, notice: Option<string>)
      requires Valid()
      modifies this
      ensures Valid()
      ensures programToAdd != "" && programToAdd !in old(Programs()) ==>
                Programs() == old(Programs()) + [programToAdd]
      ensures programToAdd == "" || programToAdd in old(Programs()) ==>
                programRows == old(programRows) && nextId == old(nextId)
      ensures notice == if programToAdd in old(Programs()) then Some(DuplicateNotice(programToAdd)) else None
      ensures programToAdd == "" ==> notice == None
      ensures Distinct(old(Programs())) ==> Distinct(Programs())
      ensures content == Page(Programs())
      ensures enrollments == old(enrollments)
    {
      var existing := GetPrograms();
      var programExists := programToAdd in existing;
      notice := None;
      if programToAdd != "" && !programExists {
        SaveProgram(programToAdd);
        existing := GetPrograms();
      } else if programExists {
        notice := Some(DuplicateNotice(programToAdd));
      }
      content := RenderPrograms(existing);
    }

    /**
     * `beforeSurveySettings`: the dropdown lists every program as its own
     * option key and label; the current choice is the survey's latest
     * enrollment, or the default program when it has none.
     */
    function BeforeSurveySettings(surveyId: int): (d: SettingsDescriptor)
      reads this
      requires Valid()
      ensures d.name == PluginName && d.setting == EnrollmentSetting && d.kind == "select"
      ensures UniqueKeys(d.options)
      ensures forall e :: e in d.options ==> e.0 == e.1
      ensures forall p :: p in Keys(d.options) <==> p in Programs()
      ensures Distinct(Programs()) ==> Keys(d.options) == Programs()
      ensures d.current == match LatestProgram(enrollments, surveyId)
                           case None => DefaultProgram
                           case Some(p) => p
    {
      var existing := GetPrograms();
      var optionRows := seq(|existing|, i requires 0 <= i < |existing| => (existing[i], existing[i]));
      var options := ListData(optionRows);
      var results := RowsOf(enrollments, surveyId);
      var program := ListData(SurveyPairs(results));
      OptionsMatchPrograms(existing, optionRows);
      RowsOfLatest(enrollments, surveyId);
      ListDataLookup(SurveyPairs(results), surveyId);
      var current := if results == [] then DefaultProgram
                     else match Lookup(program, surveyId)
                          case Some(p) => p
                          case None => DefaultProgram;
      SettingsDescriptor(PluginName, EnrollmentSetting, "select", options, current)
    }

    /**
     * `newSurveySettings`: every settings pair appends one enrollment row for
     * the survey, in order; nothing is removed. The test on line 184 is an
     * assignment, so its value is the truthy string "program_enrollment" and
     * the generic-settings branch can never run.
     */
    method NewSurveySettings(surveyId: int, settings: seq<(string, string)>)
      modifies this`enrollments
      ensures enrollments == old(enrollments) + SettingsRows(surveyId, settings)
    {
      var i := 0;
      while i < |settings|
        invariant 0 <= i <= |settings|
        invariant enrollments == old(enrollments) + SettingsRows(surveyId, settings[..i])
      {
        var (name, value) := settings[i];
        name := EnrollmentSetting;
        if Truthy(name) {
          enrollments := enrollments + [EnrollmentRow(surveyId, value)];
        } else {
          assert false;
        }
        assert SettingsRows(surveyId, settings[..i + 1]) ==
               SettingsRows(surveyId, settings[..i]) + [EnrollmentRow(surveyId, value)];
        i := i + 1;
      }
      assert settings[..i] == settings;
    }

    /**
     * `newDirectRequest`: a caller who is not superadmin is redirected to the
     * login page and nothing changes; an authorized caller may run only
     * `managePrograms`, and any other action name is refused unchanged.
     */
    method NewDirectRequest(perms: PermissionSet, action: string, programParam: string)
      returns (o: Outcome)
      requires Valid()
      modifies this
      ensures Valid()
      ensures !IsSuperAdmin(perms) ==> o == Redirect(LoginRoute)
      ensures IsSuperAdmin(perms) && action != ManageProgramsAction ==> o == UnknownAction(action)
      ensures !IsSuperAdmin(perms) || action != ManageProgramsAction ==>
                programRows == old(programRows) && nextId == old(nextId) && enrollments == old(enrollments)
      ensures IsSuperAdmin(perms) && action == ManageProgramsAction ==>
                && o.Content?
                && o.body == Page(Programs())
                && Programs() == (if programParam != "" && programParam !in old(Programs())
                                  then old(Programs()) + [programParam] else old(Programs()))
                && o.notice == (if programParam in old(Programs())
                                then Some(DuplicateNotice(programParam)) else None)
                && enrollments == old(enrollments)
    {
      if IsSuperAdmin(perms) {
        if action == ManageProgramsAction {
          var content, notice := ManagePrograms(programParam);
          o := Content(content, notice);
        } else {
          o := UnknownAction(action);
        }
      } else {
        o := Redirect(LoginRoute);
      }
    }
  }

  /** Options built from a program list: a key exists exactly for each listed program, and distinct programs keep their order. */
  lemma OptionsMatchPrograms(ps: seq<string>, optionRows: seq<(string, string)>)
    requires optionRows == seq(|ps|, i requires 0 <= i < |ps| => (ps[i], ps[i]))
    ensures forall e :: e in ListData(optionRows) ==> e.0 == e.1
    ensures forall p :: p in Keys(ListData(optionRows)) <==> p in ps
    ensures Distinct(ps) ==> Keys(ListData(optionRows)) == ps
  {
    forall p ensures p in Keys(ListData(optionRows)) <==> p in ps {
      ListDataKeys(optionRows, p);
      assert Keys(optionRows) == ps;
    }
    if Distinct(ps) {
      ListDataOfUniqueKeys(optionRows);
      assert Keys(optionRows) == ps;
    }
  }

  /**
   * The end-to-end scenario: activation seeds the default, a superadmin adds
   * "Outreach", survey 42 is saved with that program, and its settings page
   * then shows "Outreach" as current.
   */
  method OutreachScenario() returns (programs: seq<string>, current: string)
    ensures programs == [DefaultProgram, "Outreach"]
    ensures current == "Outreach"
  {
    var plugin := new Report();
    plugin.Activate();
    var admin: PermissionSet := map[1 := map["permission" := SuperAdmin]];
    var o := plugin.NewDirectRequest(admin, ManageProgramsAction, "Outreach");
    programs := plugin.Programs();
    plugin.NewSurveySettings(42, [(EnrollmentSetting, "Outreach")]);
    LatestAfterSave([], 42, [(EnrollmentSetting, "Outreach")], 0);
    var d := plugin.BeforeSurveySettings(42);
    current := d.current;
  }

  /**
   * Saving survey 5 with "Alpha" and then "Beta" shows "Beta" as current,
   * but the "Alpha" row stays in the table: saves only ever append.
   */
  method RepeatedSaveScenario() returns (rows: seq<EnrollmentRow>, current: string)
    ensures current == "Beta"
    ensures rows == [EnrollmentRow(5, "Alpha"), EnrollmentRow(5, "Beta")]
  {
    var plugin := new Report();
    plugin.NewSurveySettings(5, [(EnrollmentSetting, "Alpha")]);
    assert plugin.enrollments == [EnrollmentRow(5, "Alpha")];
    plugin.NewSurveySettings(5, [(EnrollmentSetting, "Beta")]);
    assert SettingsRows(5, [(EnrollmentSetting, "Beta")]) == [EnrollmentRow(5, "Beta")];
    rows := plugin.enrollments;
    LatestAfterSave([EnrollmentRow(5, "Alpha")], 5, [(EnrollmentSetting, "Beta")], 0);
    var d := plugin.BeforeSurveySettings(5);
    current := d.current;
  }

  /**
   * Whatever a setting is called, saving it alone makes its value the
   * survey's program: names other than `program_enrollment` are not set aside.
   */
  lemma OtherSettingBecomesEnrollment(sid: int, rows: seq<EnrollmentRow>)
    ensures forall n, v :: LatestProgram(rows + SettingsRows(sid, [(n, v)]), sid) == Some(v)
  {
    forall n, v ensures LatestProgram(rows + SettingsRows(sid, [(n, v)]), sid) == Some(v) {
      LatestAfterSave(rows, sid, [(n, v)], sid);
    }
  }
}
