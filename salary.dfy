/** The salary cell of the results table (`extractSalary`). */
module Salary {
  import opened Wrappers

  const NoSalary := "N/A"

  /** `salary_raw` as the server sends it: a string or `null`. A null or empty
      salary is shown as "N/A"; anything else is shown as it is. */
  function ExtractSalary(salaryRaw: Option<string>): (shown: string)
    ensures salaryRaw.None? || salaryRaw.value == "" ==> shown == NoSalary
    ensures salaryRaw.Some? && salaryRaw.value != "" ==> shown == salaryRaw.value
  {
    if salaryRaw.None? || salaryRaw.value == "" then NoSalary else salaryRaw.value
  }

  /** The cell is never blank, and showing a shown salary again changes nothing. */
  lemma ShownSalaryIsStable(salaryRaw: Option<string>)
    ensures ExtractSalary(salaryRaw) != ""
    ensures ExtractSalary(Some(ExtractSalary(salaryRaw))) == ExtractSalary(salaryRaw)
  {
  }
}
