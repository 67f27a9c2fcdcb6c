// WebFSHost's choice of the drive the browser storage is mounted on. The
// operating system's drive queries (used letters, disconnected network
// letters) and the saved setting are inputs.
module Mount {
  import opened Wrappers
  import opened Text

  const NoDriveLetter := "No drive letter available."
  const ArgumentNull := "ArgumentNullException: value"

  /** The i-th letter of the alphabet, upper case. */
  function Letter(i: nat): (c: char)
    requires i < 26
    ensures 'A' <= c <= 'Z'
  {
    (65 + i) as char
  }

  /** The position in the alphabet of an upper-case letter. */
  function LetterIndex(c: char): (i: nat)
    requires 'A' <= c <= 'Z'
    ensures i < 26 && Letter(i) == c
  {
    c as int - 65
  }

  /** The mount point a value names: its first letter in lower case, then ":\". */
  function MountPointFor(value: string, previous: string): (m: string)
    requires value != ""
    ensures IsAsciiLetter(value[0]) ==> m == [ToLowerAscii(value[0])] + ":\\"
    ensures IsAsciiLetter(value[0]) ==> 'a' <= m[0] <= 'z' && ToLowerAscii(m[0]) == ToLowerAscii(value[0])
    ensures !IsAsciiLetter(value[0]) ==> m == previous
  {
    if IsAsciiLetter(value[0]) then [ToLowerAscii(value[0])] + ":\\" else previous
  }

  /**
   * The drive letters from Letter(k) to Z, in order, that are not in use and
   * are not disconnected network drives.
   */
  function UnusedFrom(k: nat, used: seq<char>, disconnected: seq<string>): (r: seq<string>)
    requires k <= 26
    ensures forall j :: 0 <= j < |r| ==> |r[j]| == 1 && 'A' <= r[j][0] <= 'Z' && k <= LetterIndex(r[j][0])
    ensures forall j, l :: 0 <= j < l < |r| ==> r[j][0] < r[l][0]
    ensures forall i :: k <= i < 26 ==> ([Letter(i)] in r <==> Letter(i) !in used && [Letter(i)] !in disconnected)
    decreases 26 - k
  {
    if k == 26 then []
    else
      var rest := UnusedFrom(k + 1, used, disconnected);
      var c := Letter(k);
      if c !in used && [c] !in disconnected then [[c]] + rest else rest
  }

  /** FindUnusedDriveLetters: A to Z, in order, minus used and disconnected letters. */
  function FindUnusedDriveLetters(used: seq<char>, disconnected: seq<string>): (r: seq<string>)
    ensures forall j :: 0 <= j < |r| ==> |r[j]| == 1 && 'A' <= r[j][0] <= 'Z'
    ensures forall j, l :: 0 <= j < l < |r| ==> r[j][0] < r[l][0]
    ensures forall c :: 'A' <= c <= 'Z' ==> ([c] in r <==> c !in used && [c] !in disconnected)
  {
    var r := UnusedFrom(0, used, disconnected);
    assert forall c :: 'A' <= c <= 'Z' ==> ([c] in r <==> c !in used && [c] !in disconnected) by {
      forall c | 'A' <= c <= 'Z' ensures [c] in r <==> c !in used && [c] !in disconnected {
        var i := LetterIndex(c);
        assert [Letter(i)] in r <==> Letter(i) !in used && [Letter(i)] !in disconnected;
      }
    }
    r
  }

  /** The letter FindMountPoint picks: the middle one when more than two are free, else the last. */
  function PickedLetter(available: seq<string>): (s: string)
    requires available != []
    ensures |available| > 2 ==> s == available[|available| / 2 - 1]
    ensures |available| <= 2 ==> s == available[|available| - 1]
  {
    var n := |available|;
    if n > 2 then available[..n / 2][n / 2 - 1] else available[n - 1]
  }

  class WebFSHost {
    var mountPoint: string

    constructor ()
      ensures mountPoint == ""
    {
      mountPoint := "";
    }

    /**
     * The MountPoint setter: an empty value throws; a value starting with a
     * letter stores that letter, lower case, followed by ":\"; any other value
     * is ignored.
     */
    method SetMountPoint(value: string) returns (r: Result<Unit, string>)
      modifies this
      ensures value == "" ==> r == Err(ArgumentNull) && mountPoint == old(mountPoint)
      ensures value != "" ==> r == Ok(Unit) && mountPoint == MountPointFor(value, old(mountPoint))
    {
      if value == "" {
        return Err(ArgumentNull);
      }
      if IsAsciiLetter(value[0]) {
        mountPoint := [ToLowerAscii(value[0])] + ":\\";
      }
      r := Ok(Unit);
    }

    /**
     * FindMountPoint: a non-empty saved setting always wins (the test that its
     * first character occurs in it cannot fail); otherwise a free letter is
     * picked, and with none free it throws.
     */
    method FindMountPoint(used: seq<char>, disconnected: seq<string>, saved: Option<string>) returns (r: Result<Unit, string>)
      modifies this
      ensures saved.Some? && saved.value != "" ==> r == Ok(Unit) && mountPoint == MountPointFor(saved.value, old(mountPoint))
      ensures !(saved.Some? && saved.value != "") ==>
        var available := FindUnusedDriveLetters(used, disconnected);
        (available == [] ==> r == Err(NoDriveLetter) && mountPoint == old(mountPoint)) &&
        (available != [] ==> r == Ok(Unit) && mountPoint == [ToLowerAscii(PickedLetter(available)[0])] + ":\\")
    {
      var available := FindUnusedDriveLetters(used, disconnected);
      if saved.Some? && saved.value != "" {
        ContainsFirst(saved.value);
      }
      if saved.Some? && saved.value != "" && ContainsIgnoringCase(saved.value, saved.value[0]) {
        r := SetMountPoint(saved.value);
        return;
      }
      if |available| > 0 {
        var count := |available|;
        if count > 2 {
          available := available[..count / 2];
          var _ := SetMountPoint(available[|available| - 1] + ":\\");
        }
        var _ := SetMountPoint(available[|available| - 1] + ":\\");
        return Ok(Unit);
      }
      r := Err(NoDriveLetter);
    }
  }

  /** string.Contains(char, StringComparison.OrdinalIgnoreCase). */
  predicate ContainsIgnoringCase(s: string, c: char)
  {
    exists i :: 0 <= i < |s| && ToLowerAscii(s[i]) == ToLowerAscii(c)
  }

  /** A non-empty string always contains its own first character. */
  lemma ContainsFirst(s: string)
    requires s != ""
    ensures ContainsIgnoringCase(s, s[0])
  {
    assert ToLowerAscii(s[0]) == ToLowerAscii(s[0]);
  }
}
