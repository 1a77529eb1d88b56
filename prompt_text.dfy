/** Pieces of prompt text that the three prompt composers write out the
    same way, and the personal details the email and message routes take. */
module PromptText {
  import opened Wrappers
  import opened Js

  /** The `personalInfo` object of a request body; each field may be absent. */
  datatype PersonalInfo = PersonalInfo(
    name: Option<string>,
    phone: Option<string>,
    email: Option<string>,
    linkedin: Option<string>,
    github: Option<string>)

  /** `personalInfo && personalInfo.name`: the object is there and its name
      is truthy. */
  predicate Named(info: Option<PersonalInfo>) {
    info.Some? && Truthy(info.value.name)
  }

  /** What a prompt prints in place of an absent or empty contact field. */
  const NOT_PROVIDED := "Not provided"

  /** The résumé and the job description, each under its heading. */
  function UserContent(resumeContent: string, jobDescription: string): string {
    "RESUME CONTENT:\n" + resumeContent + "\n\nJOB DESCRIPTION:\n" + jobDescription
  }
}
