/** Deriving a custom product's name from the uploaded file's name, and
    the media-type test the upload handler applies. */
module FileName {
  import opened Wrappers

  /** `i` is where the regular expression `\.[^/.]+$` matches `name`: a
      dot followed by at least one character, none of them a slash or a
      dot, up to the end of the string. */
  predicate IsExtensionDot(name: string, i: int) {
    && 0 <= i < |name| - 1
    && name[i] == '.'
    && forall j :: i < j < |name| ==> name[j] != '/' && name[j] != '.'
  }

  /** The expression can match at one place at most. */
  lemma ExtensionDotUnique(name: string, i: int, k: int)
    requires IsExtensionDot(name, i) && IsExtensionDot(name, k)
    ensures i == k
  {
  }

  /** Finds the match, scanning from the end of the name. */
  function ExtensionDot(name: string): (r: Option<nat>)
    ensures r.Some? ==> IsExtensionDot(name, r.value)
    ensures r.None? ==> forall i :: !IsExtensionDot(name, i)
  {
    if |name| < 2 then None
    else
      var last := name[|name| - 1];
      if last == '/' || last == '.' then None
      else if name[|name| - 2] == '.' then Some(|name| - 2)
      else
        var prefix := name[..|name| - 1];
        var r := ExtensionDot(prefix);
        assert forall i :: IsExtensionDot(name, i) ==> IsExtensionDot(prefix, i);
        r
  }

  /** The file name with its final extension removed, as
      `name.replace(/\.[^/.]+$/, '')` computes it. */
  function StripExtension(name: string): (r: string)
    ensures forall i :: IsExtensionDot(name, i) ==> r == name[..i]
    ensures (forall i :: !IsExtensionDot(name, i)) ==> r == name
    ensures |r| <= |name| && r == name[..|r|]
  {
    match ExtensionDot(name)
    case Some(i) =>
      assert forall k :: IsExtensionDot(name, k) ==> k == i by {
        forall k | IsExtensionDot(name, k) {
          ExtensionDotUnique(name, i, k);
        }
      }
      name[..i]
    case None => name
  }

  /** Only the last extension goes; a name without one, or ending in a
      dot, is kept whole; a dot inside a directory part does not count. */
  lemma StripExtensionExamples()
    ensures StripExtension("a.b.png") == "a.b"
    ensures StripExtension("noext") == "noext"
    ensures StripExtension("file.") == "file."
    ensures StripExtension("dir.v2/photo") == "dir.v2/photo"
  {
    assert IsExtensionDot("a.b.png", 3);
    assert !IsExtensionDot("file.", 4);
    var d := "dir.v2/photo";
    forall i ensures !IsExtensionDot(d, i) {
      if 0 <= i < 6 {
        assert d[6] == '/';
      } else if 6 <= i < |d| {
        assert d[i] != '.';
      }
    }
    var n := "noext";
    forall i ensures !IsExtensionDot(n, i) {
      if 0 <= i < |n| {
        assert n[i] != '.';
      }
    }
  }

  /** The upload handler only accepts files whose declared media type
      starts with `image/`. */
  predicate IsImageType(mimeType: string) {
    |mimeType| >= 6 && mimeType[..6] == "image/"
  }
}
