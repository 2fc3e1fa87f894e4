/** Small facts about strings used to state what the formatted messages contain. */
module Text {

  /** `w` occurs in `s` starting at position `i`. */
  ghost predicate OccursAt(s: string, w: string, i: nat) {
    i + |w| <= |s| && s[i..i + |w|] == w
  }

  /** `w` occurs in `s` as a contiguous piece. */
  ghost predicate Mentions(s: string, w: string) {
    exists i: nat :: OccursAt(s, w, i)
  }

  ghost predicate StartsWith(s: string, w: string) {
    |w| <= |s| && s[..|w|] == w
  }

  ghost predicate EndsWith(s: string, w: string) {
    |w| <= |s| && s[|s| - |w|..] == w
  }
}
