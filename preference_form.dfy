/**
 * The preferences editor (src/components/forms/preference-form.tsx): the
 * same four tabs, reachable directly through tab triggers as well as
 * through Previous/Next, a resume picker with no size or type check, one
 * skill list, and a shorter inline `preferenceSchema`.
 */
module PreferenceForm {
  import opened Wrappers
  import opened Onboarding
  import opened TagList
  import opened Schema

  /** `tabItems`: each tab with its `disabled` flag. */
  datatype TabItem = TabItem(step: Step, title: string, disabled: bool)

  const TabItems: seq<TabItem> := [
    TabItem(Personal, "Personal", false),
    TabItem(Resume, "Resume", false),
    TabItem(Skills, "Skills", false),
    TabItem(JobPreferences, "Job Preferences", false)
  ]

  /** The triggers follow the tab order and none is disabled. */
  lemma TriggersAllEnabled()
    ensures |TabItems| == |TabOrder|
    ensures forall i :: 0 <= i < |TabItems| ==> TabItems[i].step == TabOrder[i] && !TabItems[i].disabled
    ensures forall i :: 0 <= i < |TabItems| ==> TabItems[i].title == Title(TabItems[i].step)
  {
  }

  /** The buttons each tab renders; the job preferences tab has none. */
  function Controls(s: Step): seq<Control> {
    match s
    case Personal => [NextButton(Resume)]
    case Resume => [PreviousButton(Personal), NextButton(Skills)]
    case Skills => [PreviousButton(Resume), NextButton(JobPreferences)]
    case JobPreferences => []
  }

  /** Next and Previous move only between adjacent steps. */
  lemma ButtonsMoveToNeighbours(s: Step, t: Step)
    ensures NextButton(t) in Controls(s) <==> Index(t) == Index(s) + 1
    ensures PreviousButton(t) in Controls(s) ==> Index(t) + 1 == Index(s)
  {
  }

  /** The last tab offers neither navigation nor Submit. */
  lemma LastTabHasNoControls()
    ensures Controls(JobPreferences) == []
    ensures forall s :: SubmitButton !in Controls(s)
  {
  }

  /** The editor's state cells. */
  class Editor {
    var activeTab: Step
    var resumeBlob: Option<ResumeFile>
    var selectedSkills: seq<string>

    /** First render: the personal tab. */
    constructor ()
      ensures activeTab == TabItems[0].step == Personal
      ensures resumeBlob == None && selectedSkills == []
    {
      activeTab := Personal;
      resumeBlob := None;
      selectedSkills := [];
    }

    /** Clicking a tab trigger: an enabled trigger jumps straight to its tab. */
    method SelectTab(i: nat)
      requires i < |TabItems| && !TabItems[i].disabled
      modifies this
      ensures activeTab == TabItems[i].step
      ensures resumeBlob == old(resumeBlob) && selectedSkills == old(selectedSkills)
    {
      activeTab := TabItems[i].step;
    }

    /** Pressing one of the active tab's buttons. */
    method Click(c: Control)
      requires c in Controls(activeTab)
      modifies this
      ensures !c.SubmitButton?
      ensures activeTab == c.target
      ensures c.NextButton? ==> Index(activeTab) == Index(old(activeTab)) + 1
      ensures c.PreviousButton? ==> Index(activeTab) + 1 == Index(old(activeTab))
      ensures resumeBlob == old(resumeBlob) && selectedSkills == old(selectedSkills)
    {
      ButtonsMoveToNeighbours(activeTab, c.target);
      activeTab := c.target;
    }

    /** `readFile`: the first chosen file is stored, whatever its size or
        type. */
    method ReadFile(files: seq<ResumeFile>)
      modifies this
      ensures files == [] ==> resumeBlob == old(resumeBlob)
      ensures files != [] ==> resumeBlob == Some(files[0])
      ensures activeTab == old(activeTab) && selectedSkills == old(selectedSkills)
    {
      if |files| > 0 {
        resumeBlob := Some(files[0]);
      }
    }

    /** `toggleSkill`. */
    method ToggleSkill(skill: string)
      modifies this
      ensures selectedSkills == Toggle(old(selectedSkills), skill)
      ensures NoDup(old(selectedSkills)) ==> NoDup(selectedSkills)
      ensures activeTab == old(activeTab) && resumeBlob == old(resumeBlob)
    {
      if NoDup(selectedSkills) {
        ToggleKeepsNoDup(selectedSkills, skill);
      }
      selectedSkills := Toggle(selectedSkills, skill);
    }

    /** A skill chip's close button. */
    method RemoveChip(skill: string)
      modifies this
      ensures selectedSkills == RemoveAll(old(selectedSkills), skill)
      ensures activeTab == old(activeTab) && resumeBlob == old(resumeBlob)
    {
      selectedSkills := RemoveAll(selectedSkills, skill);
    }

    /** Rendering the chips sorts the list in place. */
    method DisplayChips() returns (chips: seq<string>)
      modifies this
      ensures chips == selectedSkills
      ensures Sorted(chips) && multiset(chips) == multiset(old(selectedSkills))
      ensures activeTab == old(activeTab) && resumeBlob == old(resumeBlob)
    {
      chips := SortStrings(selectedSkills);
      selectedSkills := chips;
    }
  }

  /** Any step is one trigger click away, from any step. */
  lemma EveryStepReachable(target: Step)
    ensures exists i :: 0 <= i < |TabItems| && !TabItems[i].disabled && TabItems[i].step == target
  {
    var i := Index(target);
    assert TabItems[i].step == target && !TabItems[i].disabled;
  }

  const Fullname := FieldSpec("fullname", StringType, None,
                              [MinLength(6, Custom("Fullname must be at least 6 characters long."))])
  const PhoneNumberField := FieldSpec("phone", NumberType, Some("Please enter a valid phone number."), [])

  /** `preferenceSchema`. */
  const PreferenceSchema: seq<FieldSpec> := [
    Fullname,
    FieldSpec("email", StringType, None, [Email(Custom("Please enter a valid email address."))]),
    PhoneNumberField,
    FieldSpec("address", StringType, None, []),
    FieldSpec("degree", StringType, None, []),
    FieldSpec("course", StringType, None, []),
    FieldSpec("university", StringType, None, []),
    FieldSpec("graduated_year", NumberType, None, [])
  ]

  /** `fullname` needs at least 6 characters. */
  lemma FullnameRule(s: string, oracles: Oracles)
    ensures FieldIssues(Fullname, Text(s), oracles) ==
              if |s| < 6 then [Custom("Fullname must be at least 6 characters long.")] else []
  {
  }

  /** `phone` must be a number. */
  lemma PhoneMustBeNumber(v: Value, oracles: Oracles)
    ensures FieldIssues(PhoneNumberField, v, oracles) == [] <==> v.Number?
    ensures FieldIssues(PhoneNumberField, Text("+14155552671"), oracles) == [Custom("Please enter a valid phone number.")]
  {
  }
}
