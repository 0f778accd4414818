/**
 * The extension gate of the /predict handler: a file is accepted only when its
 * lower-cased name ends with ".png", ".jpg" or ".jpeg".
 */
module FileNames {

  /** Python's `str.lower` on one character, for the ASCII letters A..Z. */
  function LowerChar(c: char): (d: char)
    ensures 'A' <= c <= 'Z' ==> d as int == c as int + 32
    ensures !('A' <= c <= 'Z') ==> d == c
    ensures !('A' <= d <= 'Z')
  {
    if 'A' <= c <= 'Z' then (c as int + 32) as char else c
  }

  /** Python's `str.lower`: lower-cases every character and keeps the length. */
  function Lower(s: string): (t: string)
    ensures |t| == |s|
    ensures forall i :: 0 <= i < |s| ==> t[i] == LowerChar(s[i])
  {
    if s == [] then [] else [LowerChar(s[0])] + Lower(s[1..])
  }

  /** Python's `str.endswith` for one suffix. */
  predicate EndsWith(s: string, suffix: string) {
    |suffix| <= |s| && s[|s| - |suffix|..] == suffix
  }

  /** `EndsWith` compares the last characters of `s` with the suffix, position by position. */
  lemma EndsWithIffPointwise(s: string, suffix: string)
    ensures EndsWith(s, suffix) <==>
            |suffix| <= |s| && forall i :: 0 <= i < |suffix| ==> s[|s| - |suffix| + i] == suffix[i]
  {
    if |suffix| <= |s| && forall i :: 0 <= i < |suffix| ==> s[|s| - |suffix| + i] == suffix[i] {
      assert s[|s| - |suffix|..] == suffix;
    }
  }

  /** The suffixes the handler accepts, all lower-case. */
  const AllowedExtensions: seq<string> := [".png", ".jpg", ".jpeg"]

  /** `name.lower().endswith(('.png', '.jpg', '.jpeg'))`. */
  predicate ExtensionAllowed(name: string): (b: bool)
    ensures b ==> |name| >= 4 && LowerChar(name[|name| - 1]) == 'g'
  {
    var lowered := Lower(name);
    EndsWith(lowered, ".png") || EndsWith(lowered, ".jpg") || EndsWith(lowered, ".jpeg")
  }

  /** Lower-casing commutes with taking a suffix. */
  lemma LowerSuffix(s: string, k: nat)
    requires k <= |s|
    ensures Lower(s[k..]) == Lower(s)[k..]
  {
  }

  /** A lower-cased name ends with `ext` exactly when lower-casing its last `|ext|` characters gives `ext`. */
  lemma EndsWithLower(name: string, ext: string)
    ensures EndsWith(Lower(name), ext) <==> |ext| <= |name| && Lower(name[|name| - |ext|..]) == ext
  {
    if |ext| <= |name| {
      LowerSuffix(name, |name| - |ext|);
    }
  }

  /**
   * Independent reading of the gate: a name is accepted exactly when it splits
   * into a stem and an extension whose lower-cased form is an allowed one.
   */
  lemma ExtensionAllowedIffSplit(name: string)
    ensures ExtensionAllowed(name) <==>
            exists k :: 0 <= k <= |name| && Lower(name[k..]) in AllowedExtensions
  {
    EndsWithLower(name, ".png");
    EndsWithLower(name, ".jpg");
    EndsWithLower(name, ".jpeg");
    if ExtensionAllowed(name) {
      var ext := if EndsWith(Lower(name), ".png") then ".png"
                 else if EndsWith(Lower(name), ".jpg") then ".jpg" else ".jpeg";
      var k := |name| - |ext|;
      assert Lower(name[k..]) == ext;
      assert ext in AllowedExtensions;
    }
    if k :| 0 <= k <= |name| && Lower(name[k..]) in AllowedExtensions {
      var ext := Lower(name[k..]);
      assert name[|name| - |ext|..] == name[k..];
      assert ext == ".png" || ext == ".jpg" || ext == ".jpeg";
    }
  }

  /** The decision ignores case: names that agree up to case get the same answer. */
  lemma ExtensionCaseInsensitive(a: string, b: string)
    requires |a| == |b|
    requires forall i :: 0 <= i < |a| ==> LowerChar(a[i]) == LowerChar(b[i])
    ensures ExtensionAllowed(a) <==> ExtensionAllowed(b)
  {
    assert Lower(a) == Lower(b);
  }

  /** A suffix short enough to lie inside `s[k..]` ends `s` exactly when it ends `s[k..]`. */
  lemma EndsWithInSuffix(s: string, k: nat, suffix: string)
    requires k <= |s| && |suffix| <= |s| - k
    ensures EndsWith(s, suffix) <==> EndsWith(s[k..], suffix)
  {
    assert s[k..][|s| - k - |suffix|..] == s[|s| - |suffix|..];
  }

  /** Only the last five characters of a name matter. */
  lemma ExtensionDependsOnTail(stem: string, tail: string)
    requires |tail| >= 5
    ensures ExtensionAllowed(stem + tail) <==> ExtensionAllowed(tail)
  {
    var name := stem + tail;
    LowerSuffix(name, |stem|);
    assert name[|stem|..] == tail;
    var lowered := Lower(name);
    EndsWithInSuffix(lowered, |stem|, ".png");
    EndsWithInSuffix(lowered, |stem|, ".jpg");
    EndsWithInSuffix(lowered, |stem|, ".jpeg");
  }

  /** "FISH.JPG" and "fish.jpg" get the same decision: both pass. */
  lemma UpperCaseExample()
    ensures ExtensionAllowed("FISH.JPG") && ExtensionAllowed("fish.jpg")
  {
    assert Lower("FISH.JPG") == "fish.jpg";
    assert Lower("fish.jpg") == "fish.jpg";
  }

  /** A mixed-case ".jpeg" passes. */
  lemma MixedCaseJpegExample()
    ensures ExtensionAllowed("scan.JpEg")
  {
    assert Lower("scan.JpEg") == "scan.jpeg";
  }

  /** Another format and a bare "png" without a dot are rejected. */
  lemma RejectedExamples()
    ensures !ExtensionAllowed("fish.gif") && !ExtensionAllowed("png")
  {
    assert Lower("fish.gif") == "fish.gif";
    assert Lower("png") == "png";
  }

  /** Only the final extension counts: ".jpg" followed by ".txt" is rejected. */
  lemma DoubleExtensionExample()
    ensures !ExtensionAllowed("fish.jpg.txt")
  {
    assert "fish.jp" + "g.txt" == "fish.jpg.txt";
    ExtensionDependsOnTail("fish.jp", "g.txt");
    assert Lower("g.txt") == "g.txt";
    assert !EndsWith("g.txt", ".png");
    assert !EndsWith("g.txt", ".jpg");
    assert !EndsWith("g.txt", ".jpeg");
  }
}
