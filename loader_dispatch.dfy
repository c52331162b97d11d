/**
 * The string tests of the scene loader: which parser `init` launches for a
 * model locator and type code, and which authoring tools get the coordinate
 * fix-up. Case folding is ASCII only.
 */
module LoaderDispatch {
  import opened Geometry

  /** The three parsers: Wavefront OBJ, STL and Collada DAE. */
  datatype Loader = Wavefront | Stl | Collada

  function LowerChar(c: char): char
  {
    if 'A' <= c <= 'Z' then (c as int + 32) as char else c
  }

  /** ASCII lower-casing: no capital letter is left, and a string without capitals comes back as it is. */
  function ToLower(s: string): (r: string)
    ensures |r| == |s|
    ensures forall i :: 0 <= i < |r| ==> !('A' <= r[i] <= 'Z')
    ensures (forall i :: 0 <= i < |s| ==> !('A' <= s[i] <= 'Z')) ==> r == s
  {
    seq(|s|, i requires 0 <= i < |s| => LowerChar(s[i]))
  }

  predicate EndsWith(s: string, suffix: string)
  {
    |suffix| <= |s| && s[|s| - |suffix|..] == suffix
  }

  predicate OccursAt(s: string, sub: string, i: int)
  {
    0 <= i && i + |sub| <= |s| && s[i..i + |sub|] == sub
  }

  /** Substring search, as `String.contains`. */
  function Contains(s: string, sub: string): (r: bool)
    ensures r <==> exists i :: OccursAt(s, sub, i)
    decreases |s|
  {
    if |sub| > |s| then false
    else if s[..|sub|] == sub then assert OccursAt(s, sub, 0); true
    else
      var r := Contains(s[1..], sub);
      assert forall i :: OccursAt(s[1..], sub, i) ==> OccursAt(s, sub, i + 1) by {
        forall i | OccursAt(s[1..], sub, i) ensures OccursAt(s, sub, i + 1) {
          assert s[1..][i..i + |sub|] == s[i + 1..i + 1 + |sub|];
        }
      }
      assert forall i :: OccursAt(s, sub, i) ==> i >= 1 && OccursAt(s[1..], sub, i - 1) by {
        forall i | OccursAt(s, sub, i) ensures i >= 1 && OccursAt(s[1..], sub, i - 1) {
          assert i != 0;
          assert s[1..][i - 1..i - 1 + |sub|] == s[i..i + |sub|];
        }
      }
      r
  }

  /**
   * The parser `init` launches: none without a locator; otherwise the first
   * of OBJ, STL, DAE whose lower-cased suffix matches or whose type code
   * (0, 1, 2) is given.
   */
  function ChooseLoader(uri: Option<string>, typeCode: int): (r: Option<Loader>)
    ensures uri.None? ==> r.None?
    ensures uri.Some? && typeCode == 0 ==> r == Some(Wavefront)
    ensures r.None? && uri.Some? ==>
      && typeCode != 0 && typeCode != 1 && typeCode != 2
      && !EndsWith(ToLower(uri.value), ".obj")
      && !EndsWith(ToLower(uri.value), ".stl")
      && !EndsWith(ToLower(uri.value), ".dae")
    ensures uri.Some? && !EndsWith(ToLower(uri.value), ".obj") && typeCode != 0 ==>
      (r == Some(Stl) <==> EndsWith(ToLower(uri.value), ".stl") || typeCode == 1)
    ensures uri.Some? && !EndsWith(ToLower(uri.value), ".obj") && typeCode != 0 && !EndsWith(ToLower(uri.value), ".stl") && typeCode != 1 ==>
      (r == Some(Collada) <==> EndsWith(ToLower(uri.value), ".dae") || typeCode == 2)
  {
    match uri
    case None => None
    case Some(u) =>
      var lower := ToLower(u);
      if EndsWith(lower, ".obj") || typeCode == 0 then Some(Wavefront)
      else if EndsWith(lower, ".stl") || typeCode == 1 then Some(Stl)
      else if EndsWith(lower, ".dae") || typeCode == 2 then Some(Collada)
      else None
  }

  /** Whether an object's authoring tool names Blender, in any letter case. */
  predicate IsBlender(tool: Option<string>)
  {
    tool.Some? && Contains(ToLower(tool.value), "blender")
  }

  // ---------------------------------------------------------------- lemmas

  lemma {:induction false} ToLowerIdempotent(s: string)
    ensures ToLower(ToLower(s)) == ToLower(s)
  {
    var once := ToLower(s);
    var twice := ToLower(once);
    forall i | 0 <= i < |s| ensures twice[i] == once[i] {
      assert LowerChar(LowerChar(s[i])) == LowerChar(s[i]);
    }
  }

  /** The choice depends on the locator only up to ASCII letter case. */
  lemma ChooseLoaderIgnoresCase(u: string, typeCode: int)
    ensures ChooseLoader(Some(u), typeCode) == ChooseLoader(Some(ToLower(u)), typeCode)
  {
    ToLowerIdempotent(u);
  }

  /** A matching suffix wins over a later type code: "model.OBJ" with STL's code still loads as OBJ. */
  lemma SuffixCheckedBeforeLaterTypeCode(u: string, typeCode: int)
    requires EndsWith(ToLower(u), ".obj")
    ensures ChooseLoader(Some(u), typeCode) == Some(Wavefront)
  {
  }

  /** STL is tried before DAE: a ".dae" locator given STL's type code loads as STL. */
  lemma DaeSuffixWithStlCode(u: string)
    requires EndsWith(ToLower(u), ".dae")
    ensures ChooseLoader(Some(u), 1) == Some(Stl)
  {
  }

  /** Without a recognised suffix, the type code alone decides. */
  lemma TypeCodeDecidesWithoutSuffix(u: string, typeCode: int)
    requires !EndsWith(ToLower(u), ".obj") && !EndsWith(ToLower(u), ".stl") && !EndsWith(ToLower(u), ".dae")
    ensures ChooseLoader(Some(u), typeCode) ==
      if typeCode == 0 then Some(Wavefront)
      else if typeCode == 1 then Some(Stl)
      else if typeCode == 2 then Some(Collada)
      else None
  {
  }

  /** "Blender 2.79" and "BLENDER" are recognised; a missing tool is not. */
  lemma BlenderExamples()
    ensures IsBlender(Some("Blender 2.79"))
    ensures !IsBlender(None)
  {
    var lower := ToLower("Blender 2.79");
    assert lower[..7] == "blender";
    assert OccursAt(lower, "blender", 0);
  }
}
