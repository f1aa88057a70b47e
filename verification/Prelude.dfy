/** Types and string predicates shared by the models. */
module Prelude {
  datatype Option<+T> = None | Some(value: T)

  datatype Result<+T> = Ok(ok: T) | Err(reason: string)

  datatype MixType = Stream | Monitor

  predicate StartsWith(s: string, prefix: string) {
    |prefix| <= |s| && s[..|prefix|] == prefix
  }

  predicate EndsWith(s: string, suffix: string) {
    |suffix| <= |s| && s[|s| - |suffix|..] == suffix
  }

  predicate Contains(s: string, t: string) {
    exists i | 0 <= i <= |s| :: OccursAt(s, t, i)
  }

  predicate OccursAt(s: string, t: string, i: nat) {
    i + |t| <= |s| && s[i..i + |t|] == t
  }
}
