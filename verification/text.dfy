/**
 * The string operations behind the search boxes: `toLowerCase` (restricted to
 * ASCII case folding) and `includes` (substring search).
 */
module Text {

  /** ASCII case folding of one character: 'A'..'Z' become 'a'..'z', everything else is kept. */
  function LowerChar(c: char): (r: char)
    ensures 'A' <= c <= 'Z' ==> 'a' <= r <= 'z' && r as int - c as int == 32
    ensures !('A' <= c <= 'Z') ==> r == c
    ensures !('A' <= r <= 'Z')
  {
    if 'A' <= c <= 'Z' then (c as int + 32) as char else c
  }

  /** `String.prototype.toLowerCase`, as ASCII case folding. */
  function Lower(s: string): (r: string)
    ensures |r| == |s|
    ensures forall i :: 0 <= i < |s| ==> r[i] == LowerChar(s[i])
    ensures forall i :: 0 <= i < |r| ==> !('A' <= r[i] <= 'Z')
  {
    seq(|s|, i requires 0 <= i < |s| => LowerChar(s[i]))
  }

  /** Lowering a lowered string changes nothing. */
  lemma LowerIdempotent(s: string)
    ensures Lower(Lower(s)) == Lower(s)
  {
  }

  /** `q` appears in `s` starting at position `i`. */
  ghost predicate OccursAt(s: string, q: string, i: nat) {
    i + |q| <= |s| && s[i..i + |q|] == q
  }

  /** `String.prototype.includes`: scan `s` from the left for a copy of `q`. */
  predicate Includes(s: string, q: string)
    ensures Includes(s, q) ==> |q| <= |s|
    ensures q <= s ==> Includes(s, q)
    decreases |s|
  {
    |q| <= |s| && (s[..|q|] == q || Includes(s[1..], q))
  }

  /** The scan finds `q` exactly when `q` occurs at some position of `s`. */
  lemma {:induction false} IncludesIff(s: string, q: string)
    ensures Includes(s, q) <==> exists i: nat :: OccursAt(s, q, i)
    decreases |s|
  {
    if |q| <= |s| {
      if s[..|q|] == q {
        assert OccursAt(s, q, 0);
        return;
      }
      IncludesIff(s[1..], q);
      if Includes(s[1..], q) {
        var i: nat :| OccursAt(s[1..], q, i);
        assert s[i + 1..i + 1 + |q|] == s[1..][i..i + |q|];
        assert OccursAt(s, q, i + 1);
      } else {
        forall i: nat | OccursAt(s, q, i) ensures false {
          if i > 0 {
            assert s[1..][i - 1..i - 1 + |q|] == s[i..i + |q|];
            assert OccursAt(s[1..], q, i - 1);
          }
        }
      }
    } else {
      forall i: nat | OccursAt(s, q, i) ensures false { }
    }
  }

  /** The empty query is found in every string (`"abc".includes("")` is true). */
  lemma EmptyQueryIncluded(s: string)
    ensures Includes(s, "")
  {
    assert s[..0] == "";
  }

  /** `q` occurs in `s` at `i` (a witness for a concrete search). */
  lemma IncludesAt(s: string, q: string, i: nat)
    requires OccursAt(s, q, i)
    ensures Includes(s, q)
  {
    IncludesIff(s, q);
  }

  /**
   * `text.toLowerCase().includes(query.toLowerCase())`: the case-insensitive
   * substring test every search box applies.
   */
  predicate ContainsIgnoringCase(text: string, query: string)
    ensures query == "" ==> ContainsIgnoringCase(text, query)
    ensures ContainsIgnoringCase(text, query) ==> |query| <= |text|
    ensures ContainsIgnoringCase(text, query) <==> Includes(Lower(text), Lower(Lower(query)))
  {
    LowerIdempotent(query);
    Includes(Lower(text), Lower(query))
  }
}
