/** The calculation context a checkpoint is bound to. */
module Contexts {
  /** 64 lower-case hexadecimal digits. */
  predicate ValidContext(context: string) {
    |context| == 64 &&
    forall i :: 0 <= i < |context| ==> '0' <= context[i] <= '9' || 'a' <= context[i] <= 'f'
  }
}
