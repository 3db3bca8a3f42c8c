/** The relation tuples that the authorization store holds. */
module Tuples {
  datatype Tuple = Tuple(user: string, relation: string, obj: string)
}
