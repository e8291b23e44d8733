/** The record one lint rule emits for one problem it finds. */
module Violation {
  import opened Wrappers
  import opened Common

  datatype Violation = Violation(
    code: string,
    message: string,
    docLink: string,
    fixes: seq<string>,
    isFmtFixable: bool,
    position: Option<Position>)
}
