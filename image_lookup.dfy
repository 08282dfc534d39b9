/** Finding an image's SOP Instance UID from its file name
    (`encontrar_uid_por_nombre`). The dictionary of loaded images is given as
    its items in insertion order. */
module ImageLookup {
  import opened Wrappers

  /** One item of the image dictionary: the SOP Instance UID and the name of
      the file it was read from. */
  datatype ImageFile = ImageFile(uid: string, filename: string)

  function LowerChar(c: char): char
  {
    if 'A' <= c <= 'Z' then ((c as int) - ('A' as int) + ('a' as int)) as char else c
  }

  /** `str.lower()` restricted to ASCII letters. */
  function Lower(s: string): (r: string)
    ensures |r| == |s|
  {
    seq(|s|, i requires 0 <= i < |s| => LowerChar(s[i]))
  }

  /** `a.lower() == b.lower()`. */
  predicate SameNameIgnoringCase(a: string, b: string)
  {
    Lower(a) == Lower(b)
  }

  /** The two names agree letter by letter once each letter is lowered. */
  lemma SameNameCharwise(a: string, b: string)
    ensures SameNameIgnoringCase(a, b) <==>
      |a| == |b| && forall i :: 0 <= i < |a| ==> LowerChar(a[i]) == LowerChar(b[i])
  {
    if |a| == |b| && forall i :: 0 <= i < |a| ==> LowerChar(a[i]) == LowerChar(b[i]) {
      assert forall i :: 0 <= i < |a| ==> Lower(a)[i] == Lower(b)[i];
    }
    if SameNameIgnoringCase(a, b) {
      forall i | 0 <= i < |a| ensures LowerChar(a[i]) == LowerChar(b[i]) {
        assert Lower(a)[i] == Lower(b)[i];
      }
    }
  }

  /** Item `i` is the first whose file name matches `name`. */
  predicate FirstMatch(images: seq<ImageFile>, name: string, i: int)
  {
    0 <= i < |images| && SameNameIgnoringCase(images[i].filename, name) &&
    forall j :: 0 <= j < i ==> !SameNameIgnoringCase(images[j].filename, name)
  }

  /** The scan with early return: the UID of the first item whose file name
      matches case-insensitively, or None when none does. */
  method FindUidByName(images: seq<ImageFile>, name: string) returns (uid: Option<string>)
    ensures uid.None? <==> forall i :: 0 <= i < |images| ==> !SameNameIgnoringCase(images[i].filename, name)
    ensures uid.Some? ==> exists i :: FirstMatch(images, name, i) && images[i].uid == uid.value
  {
    var i := 0;
    while i < |images|
      invariant 0 <= i <= |images|
      invariant forall j :: 0 <= j < i ==> !SameNameIgnoringCase(images[j].filename, name)
    {
      if Lower(images[i].filename) == Lower(name) {
        return Some(images[i].uid);
      }
      i := i + 1;
    }
    return None;
  }
}
