/**
 * The profile form: the comma-separated skills field, the edits of flat and
 * dotted field names, and the save that merges the form into the stored
 * profile.
 */
module Profile {
  import opened Text

  /** A profile field value: a string, a checkbox, a list of tags, or a nested record. */
  datatype Value =
    | Str(s: string)
    | Flag(b: bool)
    | List(items: seq<string>)
    | Record(fields: map<string, Value>)

  type FormData = map<string, Value>

  /** The profile the mock fetch resolves with, and the base of every save. */
  const MOCK_PROFILE_DATA: FormData := map[
    "id" := Str("usr_123"),
    "firstName" := Str("Alex"),
    "lastName" := Str("Rivera"),
    "email" := Str("alex.rivera@intervai.com"),
    "phone" := Str("+1 (555) 123-4567"),
    "role" := Str("Frontend Developer"),
    "level" := Str("Mid-Level"),
    "skills" := List(["React", "TypeScript", "CSS Modules", "System Design"]),
    "preferences" := Record(map[
      "emailNotifications" := Flag(true),
      "smsNotifications" := Flag(false),
      "theme" := Str("System")])
  ]

  // ---------------------------------------------------------------------
  // Skills
  // ---------------------------------------------------------------------

  /** `.map(s => s.trim())`. */
  function TrimAll(pieces: seq<string>): seq<string>
  {
    seq(|pieces|, i requires 0 <= i < |pieces| => Trim(pieces[i]))
  }

  /** `.filter(s => s)`: only non-empty strings are kept. */
  function DropEmpty(pieces: seq<string>): (r: seq<string>)
    ensures |r| <= |pieces|
    ensures forall x :: x in r <==> x in pieces && x != ""
    decreases |pieces|
  {
    if pieces == [] then []
    else (if pieces[0] == "" then [] else [pieces[0]]) + DropEmpty(pieces[1..])
  }

  /** A skill as the form stores it: non-empty, trimmed, without a comma. */
  predicate WellFormedSkill(x: string) {
    x != "" && IsTrimmed(x) && ',' !in x
  }

  /** `valStr.split(',').map(s => s.trim()).filter(s => s)`. */
  function ParseSkills(valStr: string): (r: seq<string>)
    ensures forall x :: x in r ==> WellFormedSkill(x)
  {
    var trimmed := TrimAll(Split(valStr, ','));
    forall x | x in trimmed ensures ',' !in x {
      var i :| 0 <= i < |trimmed| && trimmed[i] == x;
      TrimInfix(Split(valStr, ',')[i]);
    }
    DropEmpty(trimmed)
  }

  /** `formData.skills.join(', ')`: what the skills text area shows. */
  function SkillsText(skills: seq<string>): string {
    Join(skills, ", ")
  }

  /** Each skill after the first, as it stands in the text between two commas. */
  function Blanked(xs: seq<string>): seq<string>
  {
    seq(|xs|, i requires 0 <= i < |xs| => " " + xs[i])
  }

  /** The head of a blanked list is the blanked head. */
  lemma BlankedHead(xs: seq<string>)
    requires xs != []
    ensures Blanked(xs)[0] == " " + xs[0]
  {
  }

  /** The tail of a blanked list is the blanked tail. */
  lemma BlankedTail(xs: seq<string>)
    requires xs != []
    ensures Blanked(xs)[1..] == Blanked(xs[1..])
  {
  }

  /** `Blanked` works item by item. */
  lemma BlankedCons(xs: seq<string>)
    requires xs != []
    ensures Blanked(xs) == [" " + xs[0]] + Blanked(xs[1..])
  {
    var b := Blanked(xs);
    BlankedHead(xs);
    BlankedTail(xs);
    assert b == [b[0]] + b[1..];
  }

  /** Joining with ", " is joining with "," after putting a blank before every later skill. */
  lemma {:induction false} JoinBlanked(xs: seq<string>)
    requires |xs| >= 1
    ensures Join(Blanked(xs), ",") == " " + Join(xs, ", ")
    decreases |xs|
  {
    if |xs| > 1 {
      JoinBlanked(xs[1..]);
      assert Blanked(xs)[1..] == Blanked(xs[1..]);
    }
  }

  /** The head of a trimmed list is the trimmed head. */
  lemma TrimAllHead(p: string, ps: seq<string>)
    ensures TrimAll([p] + ps)[0] == Trim(p)
  {
  }

  /** The tail of a trimmed list is the trimmed tail. */
  lemma TrimAllTail(p: string, ps: seq<string>)
    ensures TrimAll([p] + ps)[1..] == TrimAll(ps)
  {
  }

  /** `TrimAll` works piece by piece: the head is trimmed on its own. */
  lemma TrimAllCons(p: string, ps: seq<string>)
    ensures TrimAll([p] + ps) == [Trim(p)] + TrimAll(ps)
  {
    var t := TrimAll([p] + ps);
    TrimAllHead(p, ps);
    TrimAllTail(p, ps);
    assert t == [t[0]] + t[1..];
  }

  /** Filtering distributes over concatenation, so it keeps order and repetitions. */
  lemma {:induction false} DropEmptyAppend(a: seq<string>, b: seq<string>)
    ensures DropEmpty(a + b) == DropEmpty(a) + DropEmpty(b)
    decreases |a|
  {
    if a == [] {
      assert a + b == b;
    } else {
      assert (a + b)[0] == a[0] && (a + b)[1..] == a[1..] + b;
      DropEmptyAppend(a[1..], b);
    }
  }

  /** A non-empty head survives the filter. */
  lemma DropEmptyCons(t: seq<string>)
    requires |t| >= 1 && t[0] != ""
    ensures DropEmpty(t) == [t[0]] + DropEmpty(t[1..])
  {
  }

  /** Trimming and filtering a list whose first piece trims to a non-empty `x` keeps `x` first. */
  lemma CleanCons(p: string, ps: seq<string>, x: string)
    requires Trim(p) == x && x != ""
    ensures DropEmpty(TrimAll([p] + ps)) == [x] + DropEmpty(TrimAll(ps))
  {
    TrimAllCons(p, ps);
    var t := [x] + TrimAll(ps);
    DropEmptyCons(t);
    assert t[1..] == TrimAll(ps);
  }

  /** The pieces of the shown text, once trimmed and filtered, are the skills again. */
  lemma {:induction false} CleanBlanked(xs: seq<string>)
    requires forall i :: 0 <= i < |xs| ==> WellFormedSkill(xs[i])
    ensures DropEmpty(TrimAll(Blanked(xs))) == xs
    decreases |xs|
  {
    if xs != [] {
      BlankedCons(xs);
      TrimLeadingBlank(xs[0]);
      CleanCons(" " + xs[0], Blanked(xs[1..]), xs[0]);
      CleanBlanked(xs[1..]);
      assert [xs[0]] + xs[1..] == xs;
    }
  }

  /** The text shown for a non-empty list splits on commas into the first skill and the blanked rest. */
  lemma {:induction false} SkillsTextPieces(skills: seq<string>)
    requires |skills| >= 1
    requires forall i :: 0 <= i < |skills| ==> ',' !in skills[i]
    ensures Split(SkillsText(skills), ',') == [skills[0]] + Blanked(skills[1..])
  {
    var pieces := [skills[0]] + Blanked(skills[1..]);
    if |skills| > 1 {
      JoinBlanked(skills[1..]);
      assert pieces[1..] == Blanked(skills[1..]);
      assert Join(pieces, ",") == skills[0] + "," + Join(Blanked(skills[1..]), ",");
    }
    assert Join(pieces, ",") == SkillsText(skills);
    assert forall i :: 0 <= i < |pieces| ==> ',' !in pieces[i];
    SplitJoin(pieces, ',');
  }

  /** An empty list shows as "", which parses back to no skills. */
  lemma EmptySkillsRoundTrip()
    ensures ParseSkills(SkillsText([])) == []
  {
    var text := SkillsText([]);
    assert text == "";
    assert ParseSkills(text) == DropEmpty(TrimAll(Split(text, ',')));
    assert Split("", ',') == [""];
    TrimAllCons("", []);
  }

  /** A non-empty list: the first piece is already trimmed, the rest lose their blank. */
  lemma NonEmptySkillsRoundTrip(skills: seq<string>)
    requires skills != []
    requires forall i :: 0 <= i < |skills| ==> WellFormedSkill(skills[i])
    ensures ParseSkills(SkillsText(skills)) == skills
  {
    var text := SkillsText(skills);
    assert ParseSkills(text) == DropEmpty(TrimAll(Split(text, ',')));
    SkillsTextPieces(skills);
    TrimTrimmed(skills[0]);
    CleanCons(skills[0], Blanked(skills[1..]), skills[0]);
    CleanBlanked(skills[1..]);
    assert [skills[0]] + skills[1..] == skills;
  }

  /**
   * Round trip of the skills text area: parsing the text shown for a list of
   * well-formed skills gives back the same list.
   */
  lemma SkillsRoundTrip(skills: seq<string>)
    requires forall i :: 0 <= i < |skills| ==> WellFormedSkill(skills[i])
    ensures ParseSkills(SkillsText(skills)) == skills
  {
    if skills == [] {
      EmptySkillsRoundTrip();
    } else {
      NonEmptySkillsRoundTrip(skills);
    }
  }

  /** Parsing is idempotent through the text area: re-parsing the shown result changes nothing. */
  lemma ParseSkillsStable(valStr: string)
    ensures ParseSkills(SkillsText(ParseSkills(valStr))) == ParseSkills(valStr)
  {
    var r := ParseSkills(valStr);
    assert forall i :: 0 <= i < |r| ==> WellFormedSkill(r[i]) by {
      forall i | 0 <= i < |r| ensures WellFormedSkill(r[i]) {
        assert r[i] in r;
      }
    }
    SkillsRoundTrip(r);
  }

  // ---------------------------------------------------------------------
  // Field edits
  // ---------------------------------------------------------------------

  /** What an input stores: `checked` for a checkbox, `value` otherwise. */
  function InputValue(inputType: string, value: string, checked: bool): (v: Value)
    ensures inputType == "checkbox" <==> v.Flag?
    ensures v.Flag? ==> v.b == checked
    ensures v.Str? ==> v.s == value
  {
    if inputType == "checkbox" then Flag(checked) else Str(value)
  }

  /** `{...prev[parent]}`: the fields of a nested record, or none when it is missing or not a record. */
  function NestedFields(form: FormData, parent: string): map<string, Value> {
    if parent in form && form[parent].Record? then form[parent].fields else map[]
  }

  /**
   * `handleInputChange` on the form: a name containing '.' is split and its
   * first two pieces name a record and a field inside it; any other name is a
   * top-level field.
   */
  function UpdateField(form: FormData, name: string, v: Value): (r: FormData)
    ensures '.' !in name ==> r.Keys == form.Keys + {name} && r[name] == v
    ensures '.' !in name ==> forall k :: k in form && k != name ==> r[k] == form[k]
    ensures '.' in name ==>
              var parts := Split(name, '.');
              && |parts| >= 2
              && r.Keys == form.Keys + {parts[0]}
              && r[parts[0]].Record?
              && r[parts[0]].fields.Keys == NestedFields(form, parts[0]).Keys + {parts[1]}
              && r[parts[0]].fields[parts[1]] == v
              && (forall c :: c in NestedFields(form, parts[0]) && c != parts[1] ==>
                    r[parts[0]].fields[c] == NestedFields(form, parts[0])[c])
              && (forall k :: k in form && k != parts[0] ==> r[k] == form[k])
  {
    if '.' in name then
      var parts := Split(name, '.');
      SplitHasTwoParts(name, '.');
      var parent, child := parts[0], parts[1];
      form[parent := Record(NestedFields(form, parent)[child := v])]
    else
      form[name := v]
  }

  /** A string containing the separator splits into at least two pieces. */
  lemma SplitHasTwoParts(s: string, sep: char)
    requires sep in s
    ensures |Split(s, sep)| >= 2
  {
    JoinSplit(s, sep);
  }

  /** The edit of one preference leaves the other preferences and every other field alone. */
  lemma EditPreference(form: FormData, child: string, v: Value)
    requires '.' !in child && "preferences" in form && form["preferences"].Record?
    ensures var r := UpdateField(form, "preferences." + child, v);
            && r.Keys == form.Keys
            && r["preferences"] == Record(form["preferences"].fields[child := v])
            && (forall k :: k in form && k != "preferences" ==> r[k] == form[k])
  {
    var name := "preferences." + child;
    assert name == "preferences" + ['.'] + child;
    assert '.' !in "preferences";
    SplitAtFirstSeparator("preferences", child, '.');
    SplitWithoutSeparator(child, '.');
    assert name[11] == '.';
  }

  // ---------------------------------------------------------------------
  // Save
  // ---------------------------------------------------------------------

  /** `{ ...base, ...updates }`: update keys win, the others come from the base. */
  function Merge(base: FormData, updates: FormData): (r: FormData)
    ensures r.Keys == base.Keys + updates.Keys
    ensures forall k :: k in updates ==> r[k] == updates[k]
    ensures forall k :: k in base && k !in updates ==> r[k] == base[k]
  {
    base + updates
  }

  /** Saving a form that still has every stored field returns the form itself. */
  lemma MergeOverCompleteForm(base: FormData, form: FormData)
    requires base.Keys <= form.Keys
    ensures Merge(base, form) == form
  {
    assert Merge(base, form).Keys == form.Keys;
  }

  /** Merging is idempotent: saving the same updates twice is saving them once. */
  lemma MergeIdempotent(base: FormData, updates: FormData)
    ensures Merge(Merge(base, updates), updates) == Merge(base, updates)
  {
  }

  // ---------------------------------------------------------------------
  // The page state
  // ---------------------------------------------------------------------

  class ProfilePage {
    var isLoading: bool
    var formData: FormData
    var saveSuccess: bool
    var isSaving: bool
    /** The form as it was when Save was clicked: the payload of the pending request. */
    var savePayload: FormData

    constructor ()
      ensures isLoading && formData == map[] && !saveSuccess && !isSaving
    {
      isLoading, formData, saveSuccess, isSaving, savePayload := true, map[], false, false, map[];
    }

    /** The mock fetch resolved. */
    method Loaded()
      modifies this`isLoading, this`formData
      ensures !isLoading && formData == MOCK_PROFILE_DATA
    {
      isLoading, formData := false, MOCK_PROFILE_DATA;
    }

    /** `handleInputChange`: store the input's value and clear the success banner. */
    method HandleInputChange(name: string, inputType: string, value: string, checked: bool)
      modifies this`formData, this`saveSuccess
      ensures formData == UpdateField(old(formData), name, InputValue(inputType, value, checked))
      ensures '.' !in name && inputType == "checkbox" ==> formData[name] == Flag(checked)
      ensures '.' !in name && inputType != "checkbox" ==> formData[name] == Str(value)
      ensures !saveSuccess
    {
      formData := UpdateField(formData, name, InputValue(inputType, value, checked));
      saveSuccess := false;
    }

    /** `handleInputArrayChange`: parse the comma-separated text into the field. */
    method HandleInputArrayChange(name: string, valStr: string)
      modifies this`formData, this`saveSuccess
      ensures formData == old(formData)[name := List(ParseSkills(valStr))]
      ensures !saveSuccess
    {
      formData := formData[name := List(ParseSkills(valStr))];
      saveSuccess := false;
    }

    /** Clicking Save: the request goes out with the form as it is now. */
    method HandleSave()
      requires !isSaving
      modifies this`isSaving, this`saveSuccess, this`savePayload
      ensures isSaving && !saveSuccess && savePayload == formData
    {
      isSaving, saveSuccess, savePayload := true, false, formData;
    }

    /**
     * The mock update resolved: the form becomes the stored profile merged
     * with the payload, replacing any edits made while the request was out.
     */
    method SaveCompleted()
      requires isSaving
      modifies this`formData, this`saveSuccess, this`isSaving
      ensures formData == Merge(MOCK_PROFILE_DATA, savePayload)
      ensures saveSuccess && !isSaving
    {
      formData := Merge(MOCK_PROFILE_DATA, savePayload);
      saveSuccess, isSaving := true, false;
    }

    /** The 3-second timeout hides the success banner. */
    method SaveSuccessExpired()
      modifies this`saveSuccess
      ensures !saveSuccess
    {
      saveSuccess := false;
    }
  }
}
