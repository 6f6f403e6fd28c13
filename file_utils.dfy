/** File-name helpers of the sound picker
    (sound_picker/src/main/java/de/alarmclock/soundpicker/FileUtils.java).
    The extension is what the pattern `[.][^.]+$` matches: a dot followed by
    at least one character, none of them a dot, up to the end of the name. */
module FileUtils {
  import opened Common

  /** The pattern matches starting at position p. */
  predicate ExtensionAt(name: string, p: nat)
  {
    p + 1 < |name| && name[p] == '.' && forall j :: p < j < |name| ==> name[j] != '.'
  }

  /** The position of the last dot, if there is one. */
  function LastDot(name: string): (r: Option<nat>)
    ensures r.Some? ==> r.value < |name| && name[r.value] == '.'
    ensures r.Some? ==> forall j :: r.value < j < |name| ==> name[j] != '.'
    ensures r.None? ==> forall j :: 0 <= j < |name| ==> name[j] != '.'
  {
    if |name| == 0 then None
    else if name[|name| - 1] == '.' then Some(|name| - 1)
    else LastDot(name[..|name| - 1])
  }

  /** Where the matcher finds the pattern: only at the last dot, which must
      not be the last character. */
  function ExtensionStart(name: string): (r: Option<nat>)
    ensures r.Some? ==> ExtensionAt(name, r.value)
    ensures r.None? ==> forall p: nat :: !ExtensionAt(name, p)
    ensures forall p: nat :: ExtensionAt(name, p) ==> r == Some(p)
  {
    match LastDot(name)
    case Some(p) => if p + 1 < |name| then Some(p) else None
    case None => None
  }

  /** getNameWithoutExtension: the first match replaced by nothing. */
  function GetNameWithoutExtension(name: string): (r: string)
    ensures ExtensionStart(name).None? ==> r == name
    ensures ExtensionStart(name).Some? ==> r == name[..ExtensionStart(name).value]
  {
    match ExtensionStart(name)
    case Some(p) => name[..p]
    case None => name
  }

  /** getExtension: the matched text, or None where the source throws
      NoSuchElementException. */
  function GetExtension(name: string): (r: Option<string>)
    ensures r.None? <==> forall p: nat :: !ExtensionAt(name, p)
    ensures r.Some? ==> |r.value| >= 2 && r.value[0] == '.'
    ensures r.Some? ==> forall j :: 1 <= j < |r.value| ==> r.value[j] != '.'
  {
    match ExtensionStart(name)
    case Some(p) => Some(name[p..])
    case None => None
  }

  /** The name without extension followed by the extension is the name. */
  lemma NameAndExtensionRebuildName(name: string)
    ensures GetExtension(name).Some? ==> GetNameWithoutExtension(name) + GetExtension(name).value == name
    ensures GetExtension(name).None? ==> GetNameWithoutExtension(name) == name
  {
  }

  /** An extension of a dot and at least one non-dot character, appended to
      any base name, is found again, and removing it gives the base back. */
  lemma ExtensionRoundTrip(base: string, ext: string)
    requires |ext| >= 2 && ext[0] == '.' && forall j :: 1 <= j < |ext| ==> ext[j] != '.'
    ensures GetExtension(base + ext) == Some(ext)
    ensures GetNameWithoutExtension(base + ext) == base
  {
    var name := base + ext;
    assert ExtensionAt(name, |base|);
    assert name[|base|..] == ext;
    assert name[..|base|] == base;
  }

  /** A name whose only dot is its last character has no extension:
      "song." throws. */
  lemma TrailingDotHasNoExtension()
    ensures GetExtension("song.") == None
    ensures GetNameWithoutExtension("song.") == "song."
  {
    assert !ExtensionAt("song.", 4);
  }
}
