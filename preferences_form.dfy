/**
 * The onboarding wizard (src/components/forms/preferences-form.tsx): four
 * tabs walked with Previous/Next, a resume size gate, two skill lists, and
 * the inline `preferenceSchema`.
 */
module PreferencesForm {
  import opened Wrappers
  import opened Onboarding
  import opened TagList
  import opened Schema

  /** The buttons each tab renders, in order. */
  function Controls(s: Step): seq<Control> {
    match s
    case Personal => [NextButton(Resume)]
    case Resume => [PreviousButton(Personal), NextButton(Skills)]
    case Skills => [PreviousButton(Resume), NextButton(JobPreferences)]
    case JobPreferences => [PreviousButton(Skills), SubmitButton]
  }

  /** Next leads to the immediate successor in the tab order, and every step
      but the last has one. */
  lemma NextIsSuccessor(s: Step, t: Step)
    ensures NextButton(t) in Controls(s) <==> Index(t) == Index(s) + 1
  {
  }

  /** Previous leads to the immediate predecessor, and every step but the
      first has one. */
  lemma PreviousIsPredecessor(s: Step, t: Step)
    ensures PreviousButton(t) in Controls(s) <==> Index(t) + 1 == Index(s)
  {
  }

  /** Previous undoes Next. */
  lemma PreviousUndoesNext(s: Step, t: Step)
    requires NextButton(t) in Controls(s)
    ensures PreviousButton(s) in Controls(t)
  {
    NextIsSuccessor(s, t);
    PreviousIsPredecessor(t, s);
  }

  /** The first tab offers no Previous; the last offers Submit and no Next. */
  lemma WizardEnds(t: Step)
    ensures PreviousButton(t) !in Controls(Personal)
    ensures NextButton(t) !in Controls(JobPreferences)
    ensures SubmitButton in Controls(JobPreferences)
    ensures forall s :: SubmitButton in Controls(s) ==> s == JobPreferences
  {
  }

  const MinResumeBytes: nat := 100 * 1024
  const MaxResumeBytes: nat := 5000 * 1024
  const TooLargeNotice := "Maximum file size below 5MB"
  const TooSmallNotice := "Minimum file size upto 100KB"

  datatype UploadVerdict = Accepted | TooSmall | TooLarge

  /** The resume size gate: more than 100 KiB and at most 5000 KiB. */
  function SizeGate(size: nat): (v: UploadVerdict)
    ensures v == Accepted <==> MinResumeBytes < size <= MaxResumeBytes
    ensures v == TooSmall <==> size <= MinResumeBytes
    ensures v == TooLarge <==> size > MaxResumeBytes
  {
    if size > MinResumeBytes then
      if size > MaxResumeBytes then TooLarge else Accepted
    else TooSmall
  }

  /** The exact byte thresholds. */
  lemma SizeGateBoundaries()
    ensures SizeGate(102400) == TooSmall && SizeGate(102401) == Accepted
    ensures SizeGate(5120000) == Accepted && SizeGate(5120001) == TooLarge
  {
  }

  /** The notice shown for a rejected file. */
  function Notice(v: UploadVerdict): (r: Option<string>)
    ensures r.None? <==> v == Accepted
    ensures v == TooSmall ==> r == Some(TooSmallNotice)
    ensures v == TooLarge ==> r == Some(TooLargeNotice)
  {
    match v
    case Accepted => None
    case TooSmall => Some(TooSmallNotice)
    case TooLarge => Some(TooLargeNotice)
  }

  /** Which list a skill toggle addresses. */
  datatype SkillList = TechSkills | SoftSkills

  /** The wizard's state cells. */
  class Wizard {
    var activeTab: Step
    var resumeFile: Option<ResumeFile>
    var selectedTechSkills: seq<string>
    var selectedSoftSkills: seq<string>

    /** First render: the personal tab, no resume, no skills. */
    constructor ()
      ensures activeTab == TabOrder[0] == Personal
      ensures resumeFile == None && selectedTechSkills == [] && selectedSoftSkills == []
    {
      activeTab := Personal;
      resumeFile := None;
      selectedTechSkills := [];
      selectedSoftSkills := [];
    }

    /** Pressing one of the active tab's buttons. Next and Previous move to
        the adjacent step without any validation; Submit does nothing. */
    method Click(c: Control)
      requires c in Controls(activeTab)
      modifies this
      ensures c.NextButton? ==> activeTab == c.target && Index(activeTab) == Index(old(activeTab)) + 1
      ensures c.PreviousButton? ==> activeTab == c.target && Index(activeTab) + 1 == Index(old(activeTab))
      ensures c.SubmitButton? ==> activeTab == old(activeTab)
      ensures resumeFile == old(resumeFile)
      ensures selectedTechSkills == old(selectedTechSkills) && selectedSoftSkills == old(selectedSoftSkills)
    {
      match c
      case NextButton(t) =>
        NextIsSuccessor(activeTab, t);
        activeTab := t;
      case PreviousButton(t) =>
        PreviousIsPredecessor(activeTab, t);
        activeTab := t;
      case SubmitButton =>
    }

    /** `readFile`: the first chosen file becomes the resume if the size gate
        accepts it; otherwise the previous resume stays and a notice is
        shown. */
    method ReadFile(files: seq<ResumeFile>) returns (notice: Option<string>)
      modifies this
      ensures files == [] ==> notice == None && resumeFile == old(resumeFile)
      ensures files != [] ==> notice == Notice(SizeGate(files[0].size))
      ensures files != [] && SizeGate(files[0].size) == Accepted ==> resumeFile == Some(files[0])
      ensures files != [] && SizeGate(files[0].size) != Accepted ==> resumeFile == old(resumeFile)
      ensures activeTab == old(activeTab)
      ensures selectedTechSkills == old(selectedTechSkills) && selectedSoftSkills == old(selectedSoftSkills)
    {
      notice := None;
      if |files| > 0 {
        var file := files[0];
        if file.size > 100 * 1024 {
          if file.size > 5000 * 1024 {
            notice := Some(TooLargeNotice);
          } else {
            resumeFile := Some(file);
          }
        } else {
          notice := Some(TooSmallNotice);
        }
      }
    }

    /** `toggleSkill`: toggles the skill in the addressed list only. */
    method ToggleSkill(skill: string, list: SkillList)
      modifies this
      ensures list == TechSkills ==> selectedTechSkills == Toggle(old(selectedTechSkills), skill)
                                     && selectedSoftSkills == old(selectedSoftSkills)
      ensures list == SoftSkills ==> selectedSoftSkills == Toggle(old(selectedSoftSkills), skill)
                                     && selectedTechSkills == old(selectedTechSkills)
      ensures activeTab == old(activeTab) && resumeFile == old(resumeFile)
    {
      if list == TechSkills {
        selectedTechSkills := Toggle(selectedTechSkills, skill);
      } else {
        selectedSoftSkills := Toggle(selectedSoftSkills, skill);
      }
    }

    /** A skill chip's close button. */
    method RemoveChip(skill: string, list: SkillList)
      modifies this
      ensures list == TechSkills ==> selectedTechSkills == RemoveAll(old(selectedTechSkills), skill)
                                     && selectedSoftSkills == old(selectedSoftSkills)
      ensures list == SoftSkills ==> selectedSoftSkills == RemoveAll(old(selectedSoftSkills), skill)
                                     && selectedTechSkills == old(selectedTechSkills)
      ensures activeTab == old(activeTab) && resumeFile == old(resumeFile)
    {
      if list == TechSkills {
        selectedTechSkills := RemoveAll(selectedTechSkills, skill);
      } else {
        selectedSoftSkills := RemoveAll(selectedSoftSkills, skill);
      }
    }

    /** Rendering a list's chips sorts that list in place. */
    method DisplayChips(list: SkillList) returns (chips: seq<string>)
      modifies this
      ensures Sorted(chips)
      ensures list == TechSkills ==> chips == selectedTechSkills
                                     && multiset(chips) == multiset(old(selectedTechSkills))
                                     && selectedSoftSkills == old(selectedSoftSkills)
      ensures list == SoftSkills ==> chips == selectedSoftSkills
                                     && multiset(chips) == multiset(old(selectedSoftSkills))
                                     && selectedTechSkills == old(selectedTechSkills)
      ensures activeTab == old(activeTab) && resumeFile == old(resumeFile)
    {
      if list == TechSkills {
        chips := SortStrings(selectedTechSkills);
        selectedTechSkills := chips;
      } else {
        chips := SortStrings(selectedSoftSkills);
        selectedSoftSkills := chips;
      }
    }
  }

  function Plain(name: string, base: BaseType): FieldSpec {
    FieldSpec(name, base, None, [])
  }

  const Fullname := FieldSpec("fullname", StringType, None,
                              [MinLength(6, Custom("Full name must be at least 6 characters long."))])
  const PhoneNumberField := FieldSpec("phone", NumberType, Some("Please enter a valid phone number."), [])

  /** `preferenceSchema`. */
  const PreferenceSchema: seq<FieldSpec> := [
    Fullname,
    FieldSpec("email", StringType, None, [Email(Custom("Please enter a valid email address."))]),
    PhoneNumberField,
    Plain("address", StringType), Plain("degree", StringType), Plain("course", StringType),
    Plain("university", StringType), Plain("graduated_year", NumberType),
    Plain("desired_role", StringType), Plain("desired_location", StringType),
    Plain("minimum_salary", NumberType), Plain("years_of_experience", NumberType),
    Plain("work_preference", StringType), Plain("travel_willingness", StringType)
  ]

  /** `fullname` needs at least 6 characters, and says so. */
  lemma FullnameRule(s: string, oracles: Oracles)
    ensures FieldIssues(Fullname, Text(s), oracles) ==
              if |s| < 6 then [Custom("Full name must be at least 6 characters long.")] else []
  {
  }

  /** `phone` must be a number: any text, such as what the phone box holds
      once edited, is rejected with the phone message. */
  lemma PhoneMustBeNumber(v: Value, oracles: Oracles)
    ensures FieldIssues(PhoneNumberField, v, oracles) == [] <==> v.Number?
    ensures !v.Number? ==> FieldIssues(PhoneNumberField, v, oracles) == [Custom("Please enter a valid phone number.")]
  {
  }

  /** The form's default values, one for each schema field; the default
      work preference comes from a constant this model does not see. */
  function DefaultValues(workPreference: Value): (r: map<string, Value>)
    ensures forall i :: 0 <= i < |PreferenceSchema| ==> PreferenceSchema[i].name in r
    ensures forall key :: key in r ==> exists i :: 0 <= i < |PreferenceSchema| && PreferenceSchema[i].name == key
    ensures "work_preference" in r && r["work_preference"] == workPreference
  {
    var names := seq(|PreferenceSchema|, i requires 0 <= i < |PreferenceSchema| => PreferenceSchema[i].name);
    assert names == ["fullname", "email", "phone", "address", "degree", "course", "university",
                     "graduated_year", "desired_role", "desired_location", "minimum_salary",
                     "years_of_experience", "work_preference", "travel_willingness"];
    var r := map["fullname" := Text(""), "email" := Text(""), "phone" := Number(123456780),
                 "address" := Text(""), "degree" := Text(""), "course" := Text(""),
                 "university" := Text(""), "graduated_year" := Number(2024),
                 "desired_role" := Text(""), "desired_location" := Text(""),
                 "minimum_salary" := Number(300000), "years_of_experience" := Number(2),
                 "work_preference" := workPreference, "travel_willingness" := Text("")];
    assert forall key :: key in r ==> key in names;
    r
  }

  /** The untouched form does not pass: the first issue is the full name's. */
  lemma DefaultsRejected(workPreference: Value, oracles: Oracles)
    ensures SchemaIssues(PreferenceSchema, DefaultValues(workPreference), oracles) != []
    ensures SchemaIssues(PreferenceSchema, DefaultValues(workPreference), oracles)[0]
            == Issue("fullname", Custom("Full name must be at least 6 characters long."))
  {
    var values := DefaultValues(workPreference);
    assert Lookup(values, "fullname") == Text("");
    assert FieldIssues(Fullname, Text(""), oracles) == [Custom("Full name must be at least 6 characters long.")];
  }
}
