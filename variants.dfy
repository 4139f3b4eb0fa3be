/** `QVariant`, the value exchanged with the view. Its internals live on the
    native side; only the constructors the modelled code uses are named. */
module Variants {
  import opened Ints

  datatype QVariant = FromI32(i: i32) | FromText(text: string)
}
