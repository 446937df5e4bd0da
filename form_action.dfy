/**
 * The action objects the three page reducers receive: `{ type: "change", name, value }`,
 * `{ type: "reset" }`, and anything else, which each reducer answers with the state unchanged.
 */
module FormAction {

  datatype Action =
    | Change(name: string, value: string)
    | Reset
    | Other(kind: string)  // an action whose `type` is neither "change" nor "reset"
}
