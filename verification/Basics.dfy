/** What the components share: optional values, ids, instants and workspaces. */
module Basics {

  datatype Option<+T> = None | Some(value: T)

  type Id = string
  type Time = int

  datatype Scope = Scope(tenant: string, workspace: string, namespace: string)
}
