/** The template-tag helpers over a target's names and a filter's colour
    (custom_code/templatetags/custom_code_tags.py): `get_color`,
    `smart_name_list`, and `get_best_name` with its inner `find_name`. A
    target's name list is its own name followed by its aliases, in the order
    the alias query returns them. */
module TargetNames {
  import opened Wrappers
  import opened PyText

  // ---------------------------------------------------------------------------
  // get_color

  /** The colour of each filter family; `other` is the fallback. */
  const Palette: map<string, string> := map[
    "U" := "rgb(59,0,113)",
    "B" := "rgb(0,87,255)",
    "V" := "rgb(120,255,0)",
    "g" := "rgb(0,204,255)",
    "r" := "rgb(255,124,0)",
    "i" := "rgb(144,0,43)",
    "g_ZTF" := "rgb(0,204,255)",
    "r_ZTF" := "rgb(255,124,0)",
    "i_ZTF" := "rgb(144,0,43)",
    "UVW2" := "#FE0683",
    "UVM2" := "#BF01BC",
    "UVW1" := "#8B06FF",
    "cyan" := "rgb(0,128,128)",
    "orange" := "rgb(250,128,114)",
    "other" := "rgb(0,0,0)"]

  const Black := "rgb(0,0,0)"

  /** `get_color(filter_name, filter_translate)`: the colour of the family the
      filter translates to; a filter that is not translated, or whose family
      has no colour, gets the `other` colour. */
  function GetColor(filterName: string, filterTranslate: map<string, string>): (color: string)
    ensures color in Palette.Values
  {
    if filterName in filterTranslate && filterTranslate[filterName] in Palette then Palette[filterTranslate[filterName]]
    else Palette["other"]
  }

  /** A colour other than black means both lookups succeeded and the family
      is not `other`; a failed lookup means black. */
  lemma GetColorLookup(filterName: string, filterTranslate: map<string, string>)
    ensures GetColor(filterName, filterTranslate) != Black <==>
      filterName in filterTranslate && filterTranslate[filterName] in Palette && filterTranslate[filterName] != "other"
    ensures GetColor(filterName, filterTranslate) != Black ==>
      GetColor(filterName, filterTranslate) == Palette[filterTranslate[filterName]]
  {
    if filterName in filterTranslate && filterTranslate[filterName] in Palette && filterTranslate[filterName] != "other" {
      var family := filterTranslate[filterName];
      assert family in {"U", "B", "V", "g", "r", "i", "g_ZTF", "r_ZTF", "i_ZTF", "UVW2", "UVM2", "UVW1", "cyan", "orange"};
    }
  }

  // ---------------------------------------------------------------------------
  // smart_name_list

  predicate Distinct(s: seq<string>) {
    forall i, j :: 0 <= i < j < |s| ==> s[i] != s[j]
  }

  /** The loop's guarded append: `n` is added unless already present. */
  function AddNew(good: seq<string>, n: string): seq<string> {
    if n in good then good else good + [n]
  }

  /** `name.replace(name[:k], name[:k].upper())`. */
  function UpperPrefix(name: string, k: nat): string
    requires 0 < k <= |name|
  {
    Replace(name, name[..k], Upper(name[..k]))
  }

  /** A name that already carries a designation: it holds `SN `, `AT ` or
      `ZTF`. */
  predicate Designated(name: string) {
    Contains(name, "SN ") || Contains(name, "AT ") || Contains(name, "ZTF")
  }

  /** A name whose first four characters hold a lower-case designation with
      its space, or `ztf`. */
  predicate LowerDesignated(name: string) {
    Contains(Take(name, 4), "sn ") || Contains(Take(name, 4), "at ") || Contains(Take(name, 4), "ztf")
  }

  /** A name that begins with `sn`, `at`, `SN` or `AT`. */
  predicate BareDesignation(name: string) {
    Contains(Take(name, 2), "sn") || Contains(Take(name, 2), "at") || Contains(Take(name, 2), "SN") || Contains(Take(name, 2), "AT")
  }

  /** The ATLAS exclusion of the third branch: `las` in the first five
      characters or `LAS` anywhere. */
  predicate AtlasLike(name: string) {
    Contains(Take(name, 5), "las") || Contains(name, "LAS")
  }

  predicate AtlasPrefix(name: string) {
    Contains(Take(name, 5), "atlas") || Contains(Take(name, 5), "ATLAS")
  }

  predicate DltPrefix(name: string) {
    Contains(Take(name, 4), "dlt")
  }

  /** The branches that rewrite a prefix only apply to names long enough to
      have it. */
  lemma PrefixLengths(name: string)
    ensures LowerDesignated(name) || DltPrefix(name) ==> |name| >= 3
    ensures AtlasPrefix(name) ==> |name| >= 5
  {
    ContainsLength(Take(name, 4), "sn ");
    ContainsLength(Take(name, 4), "at ");
    ContainsLength(Take(name, 4), "ztf");
    ContainsLength(Take(name, 4), "dlt");
    ContainsLength(Take(name, 5), "atlas");
    ContainsLength(Take(name, 5), "ATLAS");
  }

  /** One iteration of `smart_name_list` on `name`, with `good` the names
      collected so far. */
  function SmartStep(good: seq<string>, name: string): seq<string> {
    PrefixLengths(name);
    if Designated(name) && name !in good then good + [name]
    else if LowerDesignated(name) then AddNew(good, UpperPrefix(name, 3))
    else if BareDesignation(name) && name !in good && !AtlasLike(name) then
      AddNew(good, Upper(Take(name, 2)) + " " + Drop(name, 2))
    else if AtlasPrefix(name) then AddNew(good, UpperPrefix(name, 5))
    else if DltPrefix(name) then AddNew(good, UpperPrefix(name, 3))
    else AddNew(good, name)
  }

  /** What `smart_name_list` collects from a name list. */
  function SmartNames(namelist: seq<string>): seq<string> {
    if namelist == [] then []
    else SmartStep(SmartNames(namelist[..|namelist| - 1]), namelist[|namelist| - 1])
  }

  /** `smart_name_list(target)`. */
  method SmartNameList(targetName: string, aliases: seq<string>) returns (goodNames: seq<string>)
    ensures goodNames == SmartNames([targetName] + aliases)
    ensures Distinct(goodNames) && |goodNames| <= 1 + |aliases|
  {
    var namelist := [targetName] + aliases;
    goodNames := [];
    for i := 0 to |namelist|
      invariant goodNames == SmartNames(namelist[..i])
    {
      var name := namelist[i];
      assert namelist[..i + 1][..i] == namelist[..i];
      PrefixLengths(name);
      if Designated(name) && name !in goodNames {
        goodNames := goodNames + [name];
      } else if LowerDesignated(name) {
        var newName := Replace(name, name[..3], Upper(name[..3]));
        if newName !in goodNames {
          goodNames := goodNames + [newName];
        }
      } else if BareDesignation(name) && name !in goodNames && !AtlasLike(name) {
        var newName := Upper(Take(name, 2)) + " " + Drop(name, 2);
        if newName !in goodNames {
          goodNames := goodNames + [newName];
        }
      } else if AtlasPrefix(name) {
        var newName := Replace(name, name[..5], Upper(name[..5]));
        if newName !in goodNames {
          goodNames := goodNames + [newName];
        }
      } else if DltPrefix(name) {
        var newName := Replace(name, name[..3], Upper(name[..3]));
        if newName !in goodNames {
          goodNames := goodNames + [newName];
        }
      } else if name !in goodNames {
        goodNames := goodNames + [name];
      }
    }
    assert namelist[..|namelist|] == namelist;
    SmartNamesDistinct(namelist);
  }

  /** One step keeps what was collected, in order, adds at most one name and
      never a duplicate; a designated name is present afterwards. */
  lemma SmartStepGrows(good: seq<string>, name: string)
    ensures var next := SmartStep(good, name);
      next == good || (next == good + [next[|next| - 1]] && next[|next| - 1] !in good)
    ensures Designated(name) ==> name in SmartStep(good, name)
  {
  }

  /** `smart_name_list` never yields a duplicate and never more names than
      it was given. */
  lemma {:induction false} SmartNamesDistinct(namelist: seq<string>)
    ensures Distinct(SmartNames(namelist))
    ensures |SmartNames(namelist)| <= |namelist|
  {
    if namelist != [] {
      var init := namelist[..|namelist| - 1];
      SmartNamesDistinct(init);
      SmartStepGrows(SmartNames(init), namelist[|namelist| - 1]);
    }
  }

  /** Names are listed in first-occurrence order: what the first names
      yield stays at the front when more names follow. */
  lemma {:induction false} SmartNamesPrefix(namelist: seq<string>, more: seq<string>)
    ensures SmartNames(namelist) <= SmartNames(namelist + more)
    decreases |more|
  {
    if more == [] {
      assert namelist + more == namelist;
    } else {
      var init := more[..|more| - 1];
      SmartNamesPrefix(namelist, init);
      assert (namelist + more)[..|namelist + more| - 1] == namelist + init;
      SmartStepGrows(SmartNames(namelist + init), more[|more| - 1]);
    }
  }

  /** Every name that carries `SN `, `AT ` or `ZTF` is listed verbatim. */
  lemma {:induction false} SmartNamesKeepDesignated(namelist: seq<string>)
    ensures forall i :: 0 <= i < |namelist| && Designated(namelist[i]) ==> namelist[i] in SmartNames(namelist)
  {
    forall i | 0 <= i < |namelist| && Designated(namelist[i])
      ensures namelist[i] in SmartNames(namelist)
    {
      var front := namelist[..i + 1];
      assert front[..i] == namelist[..i];
      SmartStepGrows(SmartNames(namelist[..i]), namelist[i]);
      SmartNamesPrefix(front, namelist[i + 1..]);
      assert front + namelist[i + 1..] == namelist;
    }
  }

  /** The bare prefixes the third branch of `smart_name_list` spaces. */
  predicate SpaceablePrefix(prefix: string) {
    prefix == "sn" || prefix == "at" || prefix == "SN" || prefix == "AT"
  }

  /** What follows the prefix in a designation such as `2021abc`: a digit,
      then digits and lower-case letters. */
  predicate DesignationTail(rest: string) {
    |rest| > 0 && IsDigit(rest[0]) && forall k :: 0 <= k < |rest| ==> IsDigit(rest[k]) || 'a' <= rest[k] <= 'z'
  }

  /** The upper-cased prefix is `SN` or `AT`. */
  lemma UpperPrefixValue(prefix: string)
    requires SpaceablePrefix(prefix)
    ensures Upper(prefix) == "SN" || Upper(prefix) == "AT"
    ensures prefix == "sn" || prefix == "SN" ==> Upper(prefix) == "SN"
    ensures prefix == "at" || prefix == "AT" ==> Upper(prefix) == "AT"
  {
    if prefix == "sn" {
      assert Upper(prefix) == "SN";
    } else if prefix == "at" {
      assert Upper(prefix) == "AT";
    } else if prefix == "SN" {
      assert Upper(prefix) == "SN";
    } else {
      assert Upper(prefix) == "AT";
    }
  }

  /** A name made of such a prefix and tail takes neither of the first two
      branches of `smart_name_list`. */
  lemma SpacingSkipsFirst(prefix: string, rest: string)
    requires SpaceablePrefix(prefix) && DesignationTail(rest)
    ensures !Designated(prefix + rest) && !LowerDesignated(prefix + rest)
  {
    var name := prefix + rest;
    assert forall k :: 2 <= k < |name| ==> name[k] == rest[k - 2];
    assert forall k :: 0 <= k < 2 ==> name[k] == prefix[k];
    assert forall k :: 0 <= k < |name| ==> name[k] != ' ' && name[k] != 'Z';
    assert ' ' !in name && 'Z' !in name;
    assert ' ' !in Take(name, 4);
    NotContains(name, "SN ", 2);
    NotContains(name, "AT ", 2);
    NotContains(name, "ZTF", 0);
    NotContains(Take(name, 4), "sn ", 2);
    NotContains(Take(name, 4), "at ", 2);
    forall i | 0 <= i && i + 3 <= |Take(name, 4)|
      ensures Take(name, 4)[i] != "ztf"[0]
    {
      assert Take(name, 4)[i] == name[i];
    }
    NotContainsFirst(Take(name, 4), "ztf");
  }

  /** Such a name takes the third branch, which upper-cases its prefix and
      puts a space after it. */
  lemma SpacingBranch(prefix: string, rest: string)
    requires SpaceablePrefix(prefix) && DesignationTail(rest)
    ensures var name := prefix + rest;
      BareDesignation(name) && !AtlasLike(name) && Upper(Take(name, 2)) + " " + Drop(name, 2) == Upper(prefix) + " " + rest
  {
    var name := prefix + rest;
    assert forall k :: 2 <= k < |name| ==> name[k] == rest[k - 2];
    assert forall k :: 0 <= k < 2 ==> name[k] == prefix[k];
    assert forall k :: 0 <= k < |name| ==> name[k] != 'L';
    assert 'L' !in name;
    NotContains(name, "LAS", 0);
    forall i | 0 <= i && i + 3 <= |Take(name, 5)|
      ensures Take(name, 5)[i] != "las"[0]
    {
      assert Take(name, 5)[i] == name[i];
    }
    NotContainsFirst(Take(name, 5), "las");
    assert Take(name, 2) == prefix && StartsWith(prefix, prefix);
    assert Drop(name, 2) == rest;
  }

  /** One step of `smart_name_list` on such a name adds its spaced form
      unless that is already listed. */
  lemma SpacingStep(good: seq<string>, prefix: string, rest: string)
    requires SpaceablePrefix(prefix) && DesignationTail(rest)
    requires prefix + rest !in good
    ensures SmartStep(good, prefix + rest) == AddNew(good, Upper(prefix) + " " + rest)
  {
    SpacingSkipsFirst(prefix, rest);
    SpacingBranch(prefix, rest);
  }

  /** The spaced form carries its designation, so it is listed verbatim. */
  lemma SpacedDesignated(prefix: string, rest: string)
    requires SpaceablePrefix(prefix)
    ensures SmartStep([], Upper(prefix) + " " + rest) == [Upper(prefix) + " " + rest]
  {
    var spaced := Upper(prefix) + " " + rest;
    UpperPrefixValue(prefix);
    assert StartsWith(spaced, Upper(prefix) + " ");
    assert Designated(spaced);
  }

  /** A name such as `sn2021abc`, `at2021abc`, `SN2021abc` or `AT2021abc` is
      listed with an upper-cased, spaced prefix (`SN 2021abc`), and after
      that spaced form it adds nothing. */
  lemma SmartNamesSpacing(prefix: string, rest: string)
    requires SpaceablePrefix(prefix) && DesignationTail(rest)
    ensures SmartNames([prefix + rest]) == [Upper(prefix) + " " + rest]
    ensures SmartNames([Upper(prefix) + " " + rest, prefix + rest]) == [Upper(prefix) + " " + rest]
  {
    var name := prefix + rest;
    var spaced := Upper(prefix) + " " + rest;
    assert name != spaced by {
      UpperPrefixValue(prefix);
      assert name[2] != spaced[2];
    }
    SpacingStep([], prefix, rest);
    assert SmartNames([name]) == SmartStep([], name) == [spaced];
    SpacedDesignated(prefix, rest);
    assert [spaced, name][..1] == [spaced];
    assert SmartNames([spaced]) == [spaced];
    SpacingStep([spaced], prefix, rest);
  }

  // ---------------------------------------------------------------------------
  // get_best_name / find_name

  /** `find_name`'s test for prefix `n`: `n in name[:2].upper()` and no `LAS`
      in the first five characters, upper-cased. */
  predicate Qualifies(name: string, n: string) {
    Contains(Upper(Take(name, 2)), n) && !Contains(Upper(Take(name, 5)), "LAS")
  }

  /** `name[:2].upper() + ' ' + name[2:]`. */
  function Spaced(name: string): string {
    Upper(Take(name, 2)) + " " + Drop(name, 2)
  }

  /** `find_name(namelist, n)`: the first qualifying name, spaced; `None`
      stands for `False`. */
  function FindName(namelist: seq<string>, n: string): (r: Option<string>)
    ensures r.Some? ==> |r.value| >= 1
  {
    if namelist == [] then None
    else if Qualifies(namelist[0], n) then Some(Spaced(namelist[0]))
    else FindName(namelist[1..], n)
  }

  /** `get_best_name(target)`: the first `SN` name, else the first `AT` name,
      else the target's own name. A found name is never empty, so Python's
      `not bestname` is exactly "not found". */
  function GetBestName(targetName: string, aliases: seq<string>): (r: string)
    ensures r == targetName
      || exists name :: name in [targetName] + aliases && (Qualifies(name, "SN") || Qualifies(name, "AT")) && r == Spaced(name)
  {
    var namelist := [targetName] + aliases;
    FindNameIn(namelist, "SN");
    FindNameIn(namelist, "AT");
    match FindName(namelist, "SN")
    case Some(s) => s
    case None =>
      match FindName(namelist, "AT")
      case Some(s) => s
      case None => namelist[0]
  }

  /** A name `find_name` answers with is a qualifying name of the list, spaced. */
  lemma {:induction false} FindNameIn(namelist: seq<string>, n: string)
    ensures FindName(namelist, n).Some? ==>
      exists name :: name in namelist && Qualifies(name, n) && FindName(namelist, n).value == Spaced(name)
  {
    if namelist != [] && !Qualifies(namelist[0], n) {
      FindNameIn(namelist[1..], n);
      if FindName(namelist, n).Some? {
        var name :| name in namelist[1..] && Qualifies(name, n) && FindName(namelist[1..], n).value == Spaced(name);
        assert name in namelist;
      }
    } else if namelist != [] {
      assert namelist[0] in namelist;
    }
  }

  /** `find_name` answers with the first qualifying name, and fails exactly
      when no name qualifies. */
  lemma {:induction false} FindNameFirst(namelist: seq<string>, n: string) returns (i: nat)
    ensures FindName(namelist, n).None? <==> forall j :: 0 <= j < |namelist| ==> !Qualifies(namelist[j], n)
    ensures FindName(namelist, n).Some? ==>
      i < |namelist| && Qualifies(namelist[i], n) && FindName(namelist, n).value == Spaced(namelist[i])
      && forall j :: 0 <= j < i ==> !Qualifies(namelist[j], n)
  {
    if namelist == [] {
      i := 0;
    } else if Qualifies(namelist[0], n) {
      i := 0;
    } else {
      var k := FindNameFirst(namelist[1..], n);
      i := k + 1;
      assert forall j :: 0 < j < |namelist| ==> namelist[j] == namelist[1..][j - 1];
    }
  }

  /** A name qualifies for `SN` exactly when its first two characters,
      upper-cased, are `SN` (and likewise for `AT`); so the spaced form
      starts with the prefix and a space. */
  lemma QualifiedShape(name: string, n: string)
    requires |n| == 2 && Qualifies(name, n)
    ensures |name| >= 2 && Upper(name[..2]) == n
    ensures StartsWith(Spaced(name), n + " ")
  {
    var head := Upper(Take(name, 2));
    ContainsLength(head, n);
    assert StartsWith(head, n) by {
      if !StartsWith(head, n) {
        assert Contains(head[1..], n);
        ContainsLength(head[1..], n);
      }
    }
  }

  /** `get_best_name` yields `SN ...` when some name qualifies for `SN`,
      otherwise `AT ...` when some name qualifies for `AT`, otherwise the
      target's own name. */
  lemma BestNameShape(targetName: string, aliases: seq<string>)
    ensures var namelist := [targetName] + aliases;
      var best := GetBestName(targetName, aliases);
      ((exists j :: 0 <= j < |namelist| && Qualifies(namelist[j], "SN")) ==> StartsWith(best, "SN "))
      && (((forall j :: 0 <= j < |namelist| ==> !Qualifies(namelist[j], "SN"))
           && (exists j :: 0 <= j < |namelist| && Qualifies(namelist[j], "AT"))) ==> StartsWith(best, "AT "))
      && ((forall j :: 0 <= j < |namelist| ==> !Qualifies(namelist[j], "SN") && !Qualifies(namelist[j], "AT"))
          ==> best == targetName)
  {
    var namelist := [targetName] + aliases;
    var i := FindNameFirst(namelist, "SN");
    var k := FindNameFirst(namelist, "AT");
    if FindName(namelist, "SN").Some? {
      QualifiedShape(namelist[i], "SN");
    } else if FindName(namelist, "AT").Some? {
      QualifiedShape(namelist[k], "AT");
    }
  }

  /** A name without a designated prefix never qualifies: in `AT`, `SN`
      does not occur, and an ATLAS name is excluded by its `LAS`. */
  lemma AtlasNeverQualifies(rest: string)
    ensures !Qualifies("ATLAS" + rest, "SN") && !Qualifies("ATLAS" + rest, "AT")
  {
    var name := "ATLAS" + rest;
    assert Take(name, 2) == "AT" && Upper("AT") == "AT";
    assert Take(name, 5) == "ATLAS" && Upper("ATLAS") == "ATLAS";
    assert "SN"[0] !in "AT";
    NotContains("AT", "SN", 0);
    assert StartsWith("ATLAS"[2..], "LAS") && Contains("ATLAS"[1..], "LAS");
  }

  /** A name `sn...` gives `SN ...`. */
  lemma BestNameLower(rest: string)
    requires |rest| > 0 && IsDigit(rest[0])
    ensures GetBestName("sn" + rest, []) == "SN " + rest
  {
    var lower: string := "sn" + rest;
    assert Take(lower, 2) == "sn" && Upper("sn") == "SN" && StartsWith("SN", "SN");
    assert lower[0] == 's' && lower[1] == 'n' && lower[2] == rest[0];
    forall i | 0 <= i && i + 3 <= |Upper(Take(lower, 5))|
      ensures Upper(Take(lower, 5))[i] != "LAS"[0]
    {
      assert Upper(Take(lower, 5))[i] == UpperChar(lower[i]);
    }
    NotContainsFirst(Upper(Take(lower, 5)), "LAS");
    assert Qualifies(lower, "SN");
    assert Drop(lower, 2) == rest;
    assert Spaced(lower) == "SN" + " " + rest == "SN " + rest;
    assert |[lower][1..]| == 0;
  }

  /** A name that is already spaced, `SN ...`, gets a second space. */
  lemma BestNameSpaced(rest: string)
    requires |rest| > 0 && IsDigit(rest[0])
    ensures GetBestName("SN " + rest, []) == "SN  " + rest
  {
    var spaced: string := "SN " + rest;
    assert Take(spaced, 2) == "SN" && Upper("SN") == "SN" && StartsWith("SN", "SN");
    assert spaced[0] == 'S' && spaced[1] == 'N' && spaced[2] == ' ';
    forall i | 0 <= i && i + 3 <= |Upper(Take(spaced, 5))|
      ensures Upper(Take(spaced, 5))[i] != "LAS"[0]
    {
      assert Upper(Take(spaced, 5))[i] == UpperChar(spaced[i]);
    }
    NotContainsFirst(Upper(Take(spaced, 5)), "LAS");
    assert Qualifies(spaced, "SN");
    assert Drop(spaced, 2) == " " + rest;
    assert Spaced(spaced) == "SN" + " " + (" " + rest) == "SN  " + rest;
    assert |[spaced][1..]| == 0;
  }

  /** An ATLAS name is never chosen, so the target's own name is returned. */
  lemma BestNameAtlas(rest: string)
    ensures GetBestName("ATLAS" + rest, []) == "ATLAS" + rest
  {
    AtlasNeverQualifies(rest);
    assert |["ATLAS" + rest][1..]| == 0;
    assert FindName(["ATLAS" + rest], "SN") == None && FindName(["ATLAS" + rest], "AT") == None;
  }
}
