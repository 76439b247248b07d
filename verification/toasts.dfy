/** The notifications the client components raise. */
module Toasts {
  /** A toast: a title, a description, and whether it reports a failure. */
  datatype Toast = Toast(title: string, description: string, destructive: bool)
}
