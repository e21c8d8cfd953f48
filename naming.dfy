/**
 * The name of the build pod, derived from the image reference
 * (docker-build-cli.py:476): "build-" followed by the image name with every
 * '/' and ':' replaced by '-', the whole lowercased.
 *
 * Python's str.lower() is modelled on ASCII only: 'A'..'Z' map to 'a'..'z'
 * and every other character is left as it is.
 */
module Naming {

  const Prefix: string := "build-"

  predicate IsUpper(c: char) { 'A' <= c <= 'Z' }

  function Lower(c: char): char {
    if IsUpper(c) then (c as int + 32) as char else c
  }

  /** `replace('/', '-').replace(':', '-')` on one character. */
  function Dash(c: char): char {
    if c == '/' || c == ':' then '-' else c
  }

  /** The lowercased, separator-free image name, character by character. */
  function Sanitize(image: string): string {
    if image == [] then [] else [Lower(Dash(image[0]))] + Sanitize(image[1..])
  }

  function PodName(image: string): string {
    Prefix + Sanitize(image)
  }

  lemma {:induction false} SanitizeAt(image: string, i: nat)
    requires i < |image|
    ensures |Sanitize(image)| == |image|
    ensures Sanitize(image)[i] == Lower(Dash(image[i]))
  {
    if i == 0 {
      SanitizeLength(image);
    } else {
      SanitizeAt(image[1..], i - 1);
    }
  }

  lemma {:induction false} SanitizeLength(image: string)
    ensures |Sanitize(image)| == |image|
  {
    if image != [] {
      SanitizeLength(image[1..]);
    }
  }

  /**
   * The pod name is "build-" followed by one character per character of the
   * image name, each the lowercased, dash-for-separator image of the original.
   */
  lemma PodNameShape(image: string)
    ensures |PodName(image)| == |Prefix| + |image|
    ensures PodName(image)[..|Prefix|] == Prefix
    ensures forall i :: 0 <= i < |image| ==>
      PodName(image)[|Prefix| + i] == Lower(Dash(image[i]))
  {
    SanitizeLength(image);
    forall i | 0 <= i < |image|
      ensures PodName(image)[|Prefix| + i] == Lower(Dash(image[i]))
    {
      SanitizeAt(image, i);
    }
  }

  /** No '/', no ':' and no ASCII upper-case letter survives in the pod name. */
  lemma PodNameHasNoSeparators(image: string)
    ensures forall i :: 0 <= i < |PodName(image)| ==>
      PodName(image)[i] != '/' && PodName(image)[i] != ':' && !IsUpper(PodName(image)[i])
  {
    PodNameShape(image);
    forall i | 0 <= i < |PodName(image)|
      ensures PodName(image)[i] != '/' && PodName(image)[i] != ':' && !IsUpper(PodName(image)[i])
    {
      if i >= |Prefix| {
        var c := image[i - |Prefix|];
        assert PodName(image)[|Prefix| + (i - |Prefix|)] == Lower(Dash(c));
      }
    }
  }

  /**
   * Applying the rewrite to a name that is already in pod-name form changes
   * nothing: the sanitized name is a fixed point.
   */
  lemma {:induction false} SanitizeIdempotent(image: string)
    ensures Sanitize(Sanitize(image)) == Sanitize(image)
  {
    if image != [] {
      SanitizeIdempotent(image[1..]);
    }
  }

  /**
   * Two image references share a pod exactly when they have the same length
   * and agree character by character once separators and case are ignored.
   */
  lemma SanitizeCollides(a: string, b: string)
    ensures PodName(a) == PodName(b) <==>
      |a| == |b| && forall i :: 0 <= i < |a| ==> Lower(Dash(a[i])) == Lower(Dash(b[i]))
  {
    PodNameShape(a);
    PodNameShape(b);
    if |a| == |b| && forall i :: 0 <= i < |a| ==> Lower(Dash(a[i])) == Lower(Dash(b[i])) {
      SameImages(a, b);
    }
  }

  lemma {:induction false} SameImages(a: string, b: string)
    requires |a| == |b|
    requires forall i :: 0 <= i < |a| ==> Lower(Dash(a[i])) == Lower(Dash(b[i]))
    ensures Sanitize(a) == Sanitize(b)
  {
    if a != [] {
      SameImages(a[1..], b[1..]);
      assert Lower(Dash(a[0])) == Lower(Dash(b[0]));
    }
  }
}
