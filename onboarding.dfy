/**
 * What the two wizard variants (src/components/forms/preferences-form.tsx
 * and src/components/forms/preference-form.tsx) have in common: the four
 * tabs in their fixed order, the buttons at the foot of a tab, and the
 * chosen resume file.
 */
module Onboarding {
  datatype Step = Personal | Resume | Skills | JobPreferences

  /** `tabItems`, in order. */
  const TabOrder: seq<Step> := [Personal, Resume, Skills, JobPreferences]

  /** The tab's `value`, which selects the content shown. */
  function Value(s: Step): string {
    match s
    case Personal => "personal"
    case Resume => "resume"
    case Skills => "skills"
    case JobPreferences => "job_preferences"
  }

  function Title(s: Step): string {
    match s
    case Personal => "Personal"
    case Resume => "Resume"
    case Skills => "Skills"
    case JobPreferences => "Job Preferences"
  }

  /** Position of a step in the tab order. */
  function Index(s: Step): (i: nat)
    ensures i < |TabOrder| && TabOrder[i] == s
  {
    match s
    case Personal => 0
    case Resume => 1
    case Skills => 2
    case JobPreferences => 3
  }

  /** Each step appears once in the order, and the tab values tell the
      steps apart. */
  lemma TabsAreDistinct(s: Step, t: Step)
    ensures Index(s) == Index(t) <==> s == t
    ensures Value(s) == Value(t) <==> s == t
  {
  }

  /** A button at the foot of a tab: Previous and Next set the active tab
      to a fixed target; Submit carries no handler. */
  datatype Control = PreviousButton(target: Step) | NextButton(target: Step) | SubmitButton

  /** The file picked in the resume tab. */
  datatype ResumeFile = ResumeFile(name: string, size: nat)
}
