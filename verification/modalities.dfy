/**
 * Modality identifiers: an attendee id or join token optionally followed by
 * `#<modality>`, e.g. `"token#content"` for the content-share participant.
 *
 * `Split` models Kotlin's `String.split("#")`, which keeps empty segments:
 * `"a#"` splits into `["a", ""]`, `"#"` into `["", ""]`, and a string with
 * k separators always splits into k + 1 segments.
 */
module Modalities {

  const SeparatorChar: char := '#'
  const ModalitySeparator: string := [SeparatorChar]
  const ModalityContent: string := "content"

  /** A parsed view of one identifier string. */
  datatype DefaultModality = DefaultModality(id: string)

  /** Number of separator characters in `s`. */
  function SeparatorCount(s: string): nat
  {
    if |s| == 0 then 0
    else (if s[0] == SeparatorChar then 1 else 0) + SeparatorCount(s[1..])
  }

  /** Glue segments back together with one separator between neighbours. */
  function Join(parts: seq<string>): string
    requires |parts| >= 1
  {
    if |parts| == 1 then parts[0]
    else parts[0] + ModalitySeparator + Join(parts[1..])
  }

  /**
   * Kotlin `s.split("#")`: the maximal separator-free segments of `s`, in
   * order, empty ones included. The first segment is the prefix of `s` up
   * to (not including) its first separator.
   */
  function Split(s: string): (parts: seq<string>)
    ensures |parts| == SeparatorCount(s) + 1
    ensures forall i :: 0 <= i < |parts| ==> SeparatorChar !in parts[i]
    ensures parts[0] <= s
    ensures |parts[0]| < |s| ==> s[|parts[0]|] == SeparatorChar
    decreases |s|
  {
    if |s| == 0 then [""]
    else
      var rest := Split(s[1..]);
      if s[0] == SeparatorChar then [""] + rest
      else [[s[0]] + rest[0]] + rest[1..]
  }

  /** Splitting then joining gives back the original string. */
  lemma {:induction false} JoinSplit(s: string)
    ensures Join(Split(s)) == s
    decreases |s|
  {
    if |s| > 0 {
      var rest := Split(s[1..]);
      JoinSplit(s[1..]);
      if s[0] == SeparatorChar {
        assert Split(s) == [""] + rest;
        assert Split(s)[1..] == rest;
        assert s == ModalitySeparator + s[1..];
      } else {
        var parts := Split(s);
        assert parts == [[s[0]] + rest[0]] + rest[1..];
        if |rest| == 1 {
          assert s == [s[0]] + s[1..];
        } else {
          assert parts[1..] == rest[1..];
          assert Join(rest) == rest[0] + ModalitySeparator + Join(rest[1..]);
          assert s == [s[0]] + s[1..];
        }
      }
    }
  }

  /** A separator-free prefix followed by a separator splits off as one segment. */
  lemma {:induction false} SplitAfterSegment(a: string, b: string)
    requires SeparatorChar !in a
    ensures Split(a + ModalitySeparator + b) == [a] + Split(b)
    decreases |a|
  {
    var s := a + ModalitySeparator + b;
    if |a| == 0 {
      assert s == ModalitySeparator + b;
      assert s[1..] == b;
    } else {
      assert s[1..] == a[1..] + ModalitySeparator + b;
      SplitAfterSegment(a[1..], b);
      assert [a[0]] + a[1..] == a;
    }
  }

  /** A separator-free string is a single segment. */
  lemma {:induction false} SplitSegment(a: string)
    requires SeparatorChar !in a
    ensures Split(a) == [a]
    decreases |a|
  {
    if |a| > 0 {
      SplitSegment(a[1..]);
      assert [a[0]] + a[1..] == a;
    }
  }

  /**
   * Joining separator-free segments and splitting again recovers the
   * segments: `Split` and `Join` are inverse bijections between strings and
   * non-empty sequences of separator-free segments.
   */
  lemma {:induction false} SplitJoin(parts: seq<string>)
    requires |parts| >= 1
    requires forall i :: 0 <= i < |parts| ==> SeparatorChar !in parts[i]
    ensures Split(Join(parts)) == parts
    decreases |parts|
  {
    if |parts| == 1 {
      SplitSegment(parts[0]);
    } else {
      SplitJoin(parts[1..]);
      SplitAfterSegment(parts[0], Join(parts[1..]));
      assert [parts[0]] + parts[1..] == parts;
    }
  }

  /** `id()`: the string the modality was built from. */
  function Id(m: DefaultModality): string
  {
    m.id
  }

  /**
   * `base()`: the part of the id before its first separator (the whole id
   * when there is none, `""` for the empty id).
   */
  function Base(m: DefaultModality): (b: string)
    ensures b <= m.id
    ensures SeparatorChar !in b
    ensures |b| < |m.id| ==> m.id[|b|] == SeparatorChar
  {
    if |m.id| == 0 then "" else Split(m.id)[0]
  }

  /**
   * `modality()`: the second segment when the id splits into exactly two
   * segments, otherwise `""`. So a non-empty result means the id is
   * exactly `Base + "#" + modality`.
   */
  function Modality(m: DefaultModality): (tag: string)
    ensures SeparatorChar !in tag
    ensures SeparatorCount(m.id) != 1 ==> tag == ""
    ensures SeparatorCount(m.id) == 1 ==> m.id == Base(m) + ModalitySeparator + tag
  {
    if |m.id| == 0 then ""
    else
      var components := Split(m.id);
      JoinSplit(m.id);
      if |components| == 2 then
        assert components[1..] == [components[1]];
        components[1]
      else ""
  }

  /** `hasModality(tag)`: the tag is non-empty and is this id's modality. */
  predicate HasModality(m: DefaultModality, tag: string)
  {
    |tag| > 0 && Modality(m) == tag
  }

  /** `id()` hands back the constructor argument unchanged. */
  lemma IdIsConstructorArgument(s: string)
    ensures Id(DefaultModality(s)) == s
  {
  }

  /** The empty id has an empty base and no modality. */
  lemma EmptyId()
    ensures Base(DefaultModality("")) == ""
    ensures Modality(DefaultModality("")) == ""
    ensures !HasModality(DefaultModality(""), ModalityContent)
  {
  }

  /** An id without a separator is all base and has no modality. */
  lemma {:induction false} UntaggedId(id: string)
    requires SeparatorChar !in id
    ensures Base(DefaultModality(id)) == id
    ensures Modality(DefaultModality(id)) == ""
  {
    SplitSegment(id);
  }

  /** `A#B` with separator-free A and B (either may be empty) parses back to A and B. */
  lemma {:induction false} TaggedId(a: string, b: string)
    requires SeparatorChar !in a && SeparatorChar !in b
    ensures Base(DefaultModality(a + ModalitySeparator + b)) == a
    ensures Modality(DefaultModality(a + ModalitySeparator + b)) == b
  {
    var parts := [a, b];
    assert parts[1..] == [b];
    SplitJoin(parts);
    assert Join(parts) == a + ModalitySeparator + b;
  }

  /**
   * With two or more separators there is no modality, while the base is
   * still the strict prefix ending just before the first separator.
   */
  lemma MultiplyTaggedId(id: string)
    requires SeparatorCount(id) >= 2
    ensures Modality(DefaultModality(id)) == ""
    ensures Base(DefaultModality(id)) < id
    ensures id[|Base(DefaultModality(id))|] == SeparatorChar
  {
    var b := Base(DefaultModality(id));
    if b == id {
      SeparatorFree(id);
    }
  }

  /** A separator-free string has no separators to count. */
  lemma {:induction false} SeparatorFree(s: string)
    requires SeparatorChar !in s
    ensures SeparatorCount(s) == 0
    decreases |s|
  {
    if |s| > 0 {
      SeparatorFree(s[1..]);
    }
  }

  /**
   * `hasModality` never holds for the empty tag, and for a non-empty tag it
   * holds exactly when the id is its base, one separator and that tag.
   */
  lemma HasModalityIff(m: DefaultModality, tag: string)
    ensures !HasModality(m, "")
    ensures HasModality(m, tag) <==>
              |tag| > 0 && SeparatorCount(m.id) == 1 && m.id == Base(m) + ModalitySeparator + tag
  {
    if |tag| > 0 && SeparatorCount(m.id) == 1 && m.id == Base(m) + ModalitySeparator + tag {
      var t := Modality(m);
      assert Base(m) + ModalitySeparator + t == Base(m) + ModalitySeparator + tag;
      assert t == (Base(m) + ModalitySeparator + t)[|Base(m)| + 1..];
      assert tag == (Base(m) + ModalitySeparator + tag)[|Base(m)| + 1..];
    }
  }

  /** Tagging a separator-free base with the content modality round-trips. */
  lemma ContentTagRoundTrip(b: string)
    requires SeparatorChar !in b
    ensures Base(DefaultModality(b + ModalitySeparator + ModalityContent)) == b
    ensures HasModality(DefaultModality(b + ModalitySeparator + ModalityContent), ModalityContent)
  {
    TaggedId(b, ModalityContent);
  }
}
