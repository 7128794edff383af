/**
 * `preferencesSchema` (src/lib/validation.ts): the onboarding profile's
 * field rules and messages, in two sections, as a table for the schema
 * interpreter.
 */
module Validation {
  import opened Wrappers
  import opened Schema

  function Required(name: string, message: string): FieldSpec {
    FieldSpec(name, StringType, None, [MinLength(1, Custom(message))])
  }

  function RequiredList(name: string, message: string): FieldSpec {
    FieldSpec(name, StringArrayType, None, [MinLength(1, Custom(message))])
  }

  const FirstName := FieldSpec("first_name", StringType, None,
                               [MinLength(3, Custom("First name must be at least 3 characters long."))])
  const LastName := FieldSpec("last_name", StringType, None,
                              [MinLength(1, Custom("Last name must be at least 1 characters long."))])
  const EmailField := FieldSpec("email", StringType, None, [Email(Custom("Enter a valid email address."))])
  const PhoneField := FieldSpec("phone", StringType, None, [Phone(Custom("Enter a valid phone number."))])
  const Address := Required("address", "Address is required.")
  const Degree := Required("degree", "Degree is required.")
  const Course := Required("course", "Course is required.")
  const University := Required("university", "Specify your college/school name.")
  const GraduatedYear := FieldSpec("graduated_year", StringType, None,
                                   [MinLength(4, Custom("Year must contain atleast 4 characters")),
                                    MaxLength(4, LibraryDefault(TooLong(4))),
                                    MinLength(1, Custom("Graduation year is required."))])

  const Role := Required("role", "Role is required.")
  const Locations := RequiredList("locations", "Specify your location.")
  const CurrentLpa := Required("current_lpa", "Describe current salary in LPA.")
  const YearsOfExperience := Required("years_of_experience", "Enter your years of work experience.")
  const ExperienceLevel := RequiredList("experience_level", "Specify experience level.")
  const JobType := RequiredList("job_type", "Specify job type.")
  const WorkMode := RequiredList("work_mode", "Specify work location type.")
  const Skills := RequiredList("skills", "Specify at least one skill.")

  const PersonalInfoSchema: seq<FieldSpec> :=
    [FirstName, LastName, EmailField, PhoneField, Address, Degree, Course, University, GraduatedYear]
  const JobPreferencesSchema: seq<FieldSpec> :=
    [Role, Locations, CurrentLpa, YearsOfExperience, ExperienceLevel, JobType, WorkMode, Skills]

  /** The value object: one map of field values per section. */
  datatype Preferences = Preferences(personalInfo: map<string, Value>, jobPreferences: map<string, Value>)

  /** A field's key inside a section: `section.field`. */
  function Qualified(section: string, field: string): string {
    section + "." + field
  }

  /** Issues of one section, with the section's key in front of each field. */
  function InSection(section: string, issues: seq<Issue>): (r: seq<Issue>)
    ensures |r| == |issues|
    ensures forall k :: 0 <= k < |issues| ==> r[k] == Issue(Qualified(section, issues[k].field), issues[k].message)
  {
    seq(|issues|, k requires 0 <= k < |issues| => Issue(Qualified(section, issues[k].field), issues[k].message))
  }

  /** `e` is a message of some field of `schema`, reported under that
      field's key inside `section`. */
  ghost predicate Reported(section: string, schema: seq<FieldSpec>, values: map<string, Value>, oracles: Oracles, e: Issue) {
    exists i :: 0 <= i < |schema| && e.field == Qualified(section, schema[i].name)
                && e.message in FieldIssues(schema[i], Lookup(values, schema[i].name), oracles)
  }

  /** A section reports exactly its fields' messages, each under its own
      field's key. */
  lemma SectionReports(section: string, schema: seq<FieldSpec>, values: map<string, Value>, oracles: Oracles, e: Issue)
    ensures e in InSection(section, SchemaIssues(schema, values, oracles)) <==> Reported(section, schema, values, oracles, e)
  {
    if e in InSection(section, SchemaIssues(schema, values, oracles)) {
      ReportedIssueIsFieldMessage(section, schema, values, oracles, e);
    }
    if Reported(section, schema, values, oracles, e) {
      FieldMessageIsReported(section, schema, values, oracles, e);
    }
  }

  lemma ReportedIssueIsFieldMessage(section: string, schema: seq<FieldSpec>, values: map<string, Value>, oracles: Oracles, e: Issue)
    requires e in InSection(section, SchemaIssues(schema, values, oracles))
    ensures Reported(section, schema, values, oracles, e)
  {
    var issues := SchemaIssues(schema, values, oracles);
    var r := InSection(section, issues);
    var k :| 0 <= k < |r| && r[k] == e;
    assert issues[k] in issues;
    var i :| 0 <= i < |schema| && schema[i].name == issues[k].field
             && issues[k].message in FieldIssues(schema[i], Lookup(values, schema[i].name), oracles);
    assert e.field == Qualified(section, schema[i].name) && e.message == issues[k].message;
  }

  lemma FieldMessageIsReported(section: string, schema: seq<FieldSpec>, values: map<string, Value>, oracles: Oracles, e: Issue)
    requires Reported(section, schema, values, oracles, e)
    ensures e in InSection(section, SchemaIssues(schema, values, oracles))
  {
    var issues := SchemaIssues(schema, values, oracles);
    var r := InSection(section, issues);
    var i :| 0 <= i < |schema| && e.field == Qualified(section, schema[i].name)
             && e.message in FieldIssues(schema[i], Lookup(values, schema[i].name), oracles);
    assert Issue(schema[i].name, e.message) in issues;
    var k :| 0 <= k < |issues| && issues[k] == Issue(schema[i].name, e.message);
    assert r[k] == e;
  }

  /** Parsing the whole object: the personal section's issues, then the job
      preferences section's. An issue is reported exactly when its message
      belongs to a field of one of the sections and it carries that field's
      key. */
  function Validate(p: Preferences, oracles: Oracles): (issues: seq<Issue>)
    ensures |issues| == |SchemaIssues(PersonalInfoSchema, p.personalInfo, oracles)|
                        + |SchemaIssues(JobPreferencesSchema, p.jobPreferences, oracles)|
    ensures forall e :: e in issues <==>
              Reported("personalInfo", PersonalInfoSchema, p.personalInfo, oracles, e)
              || Reported("jobPreferences", JobPreferencesSchema, p.jobPreferences, oracles, e)
  {
    var personal := InSection("personalInfo", SchemaIssues(PersonalInfoSchema, p.personalInfo, oracles));
    var job := InSection("jobPreferences", SchemaIssues(JobPreferencesSchema, p.jobPreferences, oracles));
    assert forall e :: e in personal <==> Reported("personalInfo", PersonalInfoSchema, p.personalInfo, oracles, e) by {
      forall e ensures e in personal <==> Reported("personalInfo", PersonalInfoSchema, p.personalInfo, oracles, e) {
        SectionReports("personalInfo", PersonalInfoSchema, p.personalInfo, oracles, e);
      }
    }
    assert forall e :: e in job <==> Reported("jobPreferences", JobPreferencesSchema, p.jobPreferences, oracles, e) by {
      forall e ensures e in job <==> Reported("jobPreferences", JobPreferencesSchema, p.jobPreferences, oracles, e) {
        SectionReports("jobPreferences", JobPreferencesSchema, p.jobPreferences, oracles, e);
      }
    }
    personal + job
  }

  /** The object is valid exactly when every field of both sections is. */
  lemma ValidIffEveryField(p: Preferences, oracles: Oracles)
    ensures Validate(p, oracles) == [] <==>
              (forall i :: 0 <= i < |PersonalInfoSchema| ==> FieldValid(PersonalInfoSchema[i], p.personalInfo, oracles))
              && (forall i :: 0 <= i < |JobPreferencesSchema| ==> FieldValid(JobPreferencesSchema[i], p.jobPreferences, oracles))
  {
    SchemaValidIffFieldsValid(PersonalInfoSchema, p.personalInfo, oracles);
    SchemaValidIffFieldsValid(JobPreferencesSchema, p.jobPreferences, oracles);
  }

  /** `first_name` needs at least 3 characters, and says so. */
  lemma FirstNameRule(s: string, oracles: Oracles)
    ensures FieldIssues(FirstName, Text(s), oracles) ==
              if |s| < 3 then [Custom("First name must be at least 3 characters long.")] else []
  {
  }

  /** Whatever the rest of the object holds, a short first name is reported
      under `personalInfo.first_name` with its message. */
  lemma ShortFirstNameReported(p: Preferences, s: string, oracles: Oracles)
    requires "first_name" in p.personalInfo && p.personalInfo["first_name"] == Text(s) && |s| < 3
    ensures Issue("personalInfo.first_name", Custom("First name must be at least 3 characters long.")) in Validate(p, oracles)
  {
    FirstNameRule(s, oracles);
    assert PersonalInfoSchema[0] == FirstName;
    assert Qualified("personalInfo", FirstName.name) == "personalInfo.first_name";
    assert Reported("personalInfo", PersonalInfoSchema, p.personalInfo, oracles,
                    Issue("personalInfo.first_name", Custom("First name must be at least 3 characters long.")));
  }

  /** `last_name` and the non-empty personal text fields: rejected exactly
      when empty, each with its own message. */
  lemma RequiredPersonalTextRule(spec: FieldSpec, s: string, oracles: Oracles)
    requires spec in [LastName, Address, Degree, Course, University]
    ensures FieldIssues(spec, Text(s), oracles) == if s == "" then [spec.checks[0].message] else []
  {
  }

  /** `role`, `current_lpa` and `years_of_experience`: rejected exactly when
      empty, each with its own message. */
  lemma RequiredJobTextRule(spec: FieldSpec, s: string, oracles: Oracles)
    requires spec in [Role, CurrentLpa, YearsOfExperience]
    ensures FieldIssues(spec, Text(s), oracles) == if s == "" then [spec.checks[0].message] else []
  {
  }

  /** The required-field messages are all different. */
  lemma RequiredMessagesDistinct()
    ensures var specs := [LastName, Address, Degree, Course, University, Role, Locations,
                          CurrentLpa, YearsOfExperience, ExperienceLevel, JobType, WorkMode, Skills];
            forall i, j :: 0 <= i < j < |specs| ==> specs[i].checks[0].message != specs[j].checks[0].message
  {
  }

  /** `graduated_year` passes at exactly 4 characters, of any kind; an empty
      year reports both the minimum-length and the required message, a long
      one the library's maximum-length message. */
  lemma GraduatedYearRule(s: string, oracles: Oracles)
    ensures FieldIssues(GraduatedYear, Text(s), oracles) == [] <==> |s| == 4
    ensures s == "" ==>
              FieldIssues(GraduatedYear, Text(s), oracles)
              == [Custom("Year must contain atleast 4 characters"), Custom("Graduation year is required.")]
    ensures |s| > 4 ==> FieldIssues(GraduatedYear, Text(s), oracles) == [LibraryDefault(TooLong(4))]
                          && FieldIssues(GraduatedYear, Text(s), oracles) != FieldIssues(GraduatedYear, Undefined, oracles)
    ensures FieldIssues(GraduatedYear, Text("abcd"), oracles) == []
  {
    var checks := GraduatedYear.checks;
    var v := Text(s);
    assert checks[1..][1..][1..] == [];
    assert FailedChecks(checks[1..][1..], v, oracles)
           == if |s| >= 1 then [] else [Custom("Graduation year is required.")];
    assert FailedChecks(checks[1..], v, oracles)
           == (if |s| <= 4 then [] else [LibraryDefault(TooLong(4))]) + FailedChecks(checks[1..][1..], v, oracles);
  }

  /** The list fields: rejected exactly when empty, whatever the entries. */
  lemma RequiredListRule(spec: FieldSpec, entries: seq<string>, oracles: Oracles)
    requires spec in [Locations, ExperienceLevel, JobType, WorkMode, Skills]
    ensures FieldIssues(spec, TextList(entries), oracles) == if entries == [] then [spec.checks[0].message] else []
  {
  }

  /** `phone` passes exactly when the parser returns a number that reports
      itself valid; `email` exactly when the email test accepts it. */
  lemma ContactRules(s: string, oracles: Oracles)
    ensures FieldIssues(PhoneField, Text(s), oracles) == [] <==> oracles.parsePhone(s) == Some(true)
    ensures FieldIssues(EmailField, Text(s), oracles) == [] <==> oracles.isEmail(s)
  {
  }

  /** A field missing from its section gets the library's "Required"; one of
      the wrong type gets the library's expected/received message, and
      nothing else. */
  lemma WrongTypeRule(spec: FieldSpec, v: Value, oracles: Oracles)
    requires spec in PersonalInfoSchema + JobPreferencesSchema
    requires !HasType(spec.base, v)
    ensures v == Undefined ==> FieldIssues(spec, v, oracles) == [LibraryDefault(Missing)]
    ensures v != Undefined ==> FieldIssues(spec, v, oracles) == [LibraryDefault(InvalidType(spec.base, Received(v)))]
  {
  }
}
