/** The values both adapters hand back to their callers: the Employee document,
    the MetricDto summary of an aggregation, and the failures that escape a call. */
module Dto {
  import opened Wrappers
  import opened Json

  /** A Java int. */
  type Int32 = x: int | -0x8000_0000 <= x < 0x8000_0000

  /** The employee document. Reference fields are nullable (None stands for null);
      `address` is kept as the JSON sub-object it arrives as; `rating` (a double)
      and `salary` (a BigDecimal) are kept as their decimal text. */
  datatype Employee = Employee(
    id: Option<string>,
    name: Option<string>,
    address: Option<Json>,
    email: Option<string>,
    skills: Option<seq<string>>,
    experience: Int32,
    rating: string,
    description: Option<string>,
    verified: bool,
    salary: Option<string>,
    dob: Option<string>)

  /** The summary of an aggregation: the name the caller chose and a map from metric
      label to its value as text (None where the Java map holds null). */
  datatype MetricDto = MetricDto(field: string, data: map<string, Option<string>>)

  /** The failures that escape a service call. */
  datatype Error =
    | NullNode(what: string)     // a NullPointerException on a missing node or object
    | Deserialization            // the JSON library could not build an Employee
    | WrongVariant(kind: string) // a typed aggregate read through the wrong accessor

  /** Employee.setId: only the id changes. */
  function WithId(e: Employee, id: string): (r: Employee)
    ensures r.id == Some(id)
    ensures r.(id := e.id) == e
  {
    e.(id := Some(id))
  }
}
