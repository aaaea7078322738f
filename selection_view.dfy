/**
 * The level selection screen (scripts/view/selectionView.ts): the options a
 * thumbnail loads its level with, the name an imported level is saved
 * under so that it never overwrites a saved one, and the four parallel
 * lists of thumbnail elements that adding and deleting a level keep in
 * step. Elements are named by numbers; the DOM work is not modelled.
 */
module SelectionViews {
  import opened Wrappers
  import opened Text
  import LevelCacheNames
  import opened Sequences
  import opened ParseInts

  /** What a thumbnail asks the game view to load (`LevelLoadOptions`). */
  datatype LoadOptions =
    | NoOptions
    | ById(levelId: Option<int>, levelNameOverride: string)
    | ByName(levelName: string)

  /** An attribute that is present and not empty, so truthy. */
  predicate Truthy(attribute: Option<string>) {
    attribute.Some? && attribute.value != ""
  }

  /**
   * `createLoadOptions` (lines 44-48): nothing without a name; the id
   * with the name as its display name when there is an id; the name alone
   * otherwise.
   */
  function CreateLoadOptions(id: Option<string>, name: Option<string>): (r: LoadOptions)
    ensures r.NoOptions? <==> !Truthy(name)
    ensures r.ById? <==> Truthy(name) && Truthy(id)
    ensures r.ById? ==> r.levelId == ParseIntText(id.value) && r.levelNameOverride == name.value
    ensures r.ByName? ==> r.levelName == name.value
  {
    if Truthy(name) then
      if Truthy(id) then ById(ParseIntText(id.value), name.value) else ByName(name.value)
    else
      NoOptions
  }

  /** A level's own id attribute reads back as its id. */
  lemma LoadOptionsKeepId(id: nat, name: string)
    requires name != ""
    ensures CreateLoadOptions(Some(NatToString(id)), Some(name)) == ById(Some(id as int), name)
  {
    ParseIntNat(id);
  }

  /** The text of `/.*\(\d+\)$/`: the name ends with a number in parentheses. */
  predicate EndsWithCount(s: string) {
    exists k :: 0 <= k < |s| - 2 && s[k] == '(' && s[|s| - 1] == ')' && LevelCacheNames.AllDigits(s[k + 1..|s| - 1])
  }

  /**
   * The name numbered copies are based on (lines 296-301): a name ending in
   * a number in parentheses loses it, from its last "(", and is trimmed;
   * if nothing is left the default name is used.
   */
  function BaseName(name: string, defaultName: string): (r: string)
    ensures !EndsWithCount(name) ==> r == name
  {
    if EndsWithCount(name) then
      var cut := LastIndexOf(name, '(');
      var b := if cut < 0 then [] else Trim(name[..cut]);
      if b == "" then defaultName else b
    else
      name
  }

  /** A name ending in a number in parentheses has its "(" found, so its base is what comes before it, trimmed. */
  lemma BaseNameCutsCount(name: string, defaultName: string)
    requires EndsWithCount(name)
    ensures 0 <= LastIndexOf(name, '(') < |name|
    ensures Trim(name[..LastIndexOf(name, '(')]) != "" ==> BaseName(name, defaultName) == Trim(name[..LastIndexOf(name, '(')])
    ensures Trim(name[..LastIndexOf(name, '(')]) == "" ==> BaseName(name, defaultName) == defaultName
  {
    var k :| 0 <= k < |name| - 2 && name[k] == '(' && name[|name| - 1] == ')' && LevelCacheNames.AllDigits(name[k + 1..|name| - 1]);
    assert LastIndexOf(name, '(') >= k;
  }

  /** The text ` (k)` a numbered copy ends with. */
  function Suffix(k: nat): string {
    " (" + NatToString(k) + ")"
  }

  /** The k-th numbered name (line 320): `${originalName} (${newLevelIndex})`. */
  function Candidate(base: string, k: nat): string {
    base + Suffix(k)
  }

  /** Different numbers give different names. */
  lemma CandidateInjective(base: string, j: nat, k: nat)
    requires Candidate(base, j) == Candidate(base, k)
    ensures j == k
  {
    var c := Candidate(base, j);
    assert Suffix(j) == c[|base|..] == Suffix(k);
    assert NatToString(j) == Suffix(j)[2..|Suffix(j)| - 1];
    assert NatToString(k) == Suffix(k)[2..|Suffix(k)| - 1];
    NatToStringInjective(j, k);
  }

  /** The distinct elements of a sequence. */
  function Elements(s: seq<string>): (r: set<string>)
    ensures forall x :: x in r <==> x in s
    ensures |r| <= |s|
  {
    if |s| == 0 then {} else Elements(s[..|s| - 1]) + {s[|s| - 1]}
  }

  /** A set that holds the first m numbered names has at least m elements. */
  lemma {:induction false} CandidatesFit(base: string, m: nat, x: set<string>)
    requires forall k :: 1 <= k <= m ==> Candidate(base, k) in x
    ensures m <= |x|
    decreases m
  {
    if m > 0 {
      var c := Candidate(base, m);
      forall k | 1 <= k <= m - 1
        ensures Candidate(base, k) in x - {c}
      {
        if Candidate(base, k) == c {
          CandidateInjective(base, k, m);
        }
      }
      CandidatesFit(base, m - 1, x - {c});
    }
  }

  /** If the first m numbered names are all taken, there are at least m names. */
  lemma CandidatesBound(base: string, m: nat, names: seq<string>)
    requires forall k :: 1 <= k <= m ==> Candidate(base, k) in names
    ensures m <= |names|
  {
    CandidatesFit(base, m, Elements(names));
  }

  /** `names[i] === name` for some i, searched from the end as lines 309-314 do. */
  method Contains(names: seq<string>, name: string) returns (found: bool)
    ensures found <==> name in names
  {
    found := false;
    var i := |names| - 1;
    while i >= 0
      invariant -1 <= i < |names|
      invariant forall j :: i < j < |names| ==> names[j] != name
    {
      if names[i] == name {
        found := true;
        return;
      }
      i := i - 1;
    }
  }

  /**
   * The search of lines 303-321: the name itself when no saved level has it,
   * otherwise the first numbered copy of `base` that no saved level has,
   * found within |names| + 1 tries.
   */
  method FreeName(name: string, base: string, names: seq<string>) returns (newName: string, index: nat)
    ensures newName !in names
    ensures name !in names ==> index == 0 && newName == name
    ensures name in names ==> 1 <= index <= |names| + 1 && newName == Candidate(base, index)
    ensures forall k :: 1 <= k < index ==> Candidate(base, k) in names
  {
    index := 0;
    newName := name;
    while true
      invariant index <= |names| + 1
      invariant newName == if index == 0 then name else Candidate(base, index)
      invariant index > 0 ==> name in names
      invariant forall k :: 1 <= k < index ==> Candidate(base, k) in names
      decreases |names| + 1 - index
    {
      var taken := Contains(names, newName);
      if !taken {
        break;
      }
      if index > 0 {
        CandidatesBound(base, index, names);
      }
      index := index + 1;
      newName := Candidate(base, index);
    }
  }

  /** The name an imported level starts from (lines 288-289): its own name when valid, the default name otherwise. */
  function ImportName(levelName: string, defaultName: string): (r: string)
    ensures LevelCacheNames.IsNameValid(Some(levelName)) ==> r == levelName
    ensures !LevelCacheNames.IsNameValid(Some(levelName)) ==> r == defaultName
  {
    if LevelCacheNames.IsNameValid(Some(levelName)) then levelName else defaultName
  }

  /**
   * The name an imported level is saved under (lines 288-323): never the
   * name of a saved level; its starting name when that is free, otherwise
   * the first free numbered copy of its base name.
   */
  method ImportedName(levelName: string, names: seq<string>, defaultName: string) returns (newName: string, index: nat)
    ensures newName !in names
    ensures ImportName(levelName, defaultName) !in names ==> index == 0 && newName == ImportName(levelName, defaultName)
    ensures ImportName(levelName, defaultName) in names ==> 1 <= index <= |names| + 1
    ensures ImportName(levelName, defaultName) in names ==> newName == Candidate(BaseName(ImportName(levelName, defaultName), defaultName), index)
    ensures forall k :: 1 <= k < index ==> Candidate(BaseName(ImportName(levelName, defaultName), defaultName), k) in names
  {
    var name := levelName;
    if !LevelCacheNames.IsNameValid(Some(name)) {
      name := defaultName;
    }
    newName, index := FreeName(name, BaseName(name, defaultName), names);
  }

  /** The thumbnails of the screen: four parallel lists of elements, and whether the rule above the saved levels is shown. */
  class SelectionView {
    var thumbnails: seq<nat>
    var thumbnailImages: seq<nat>
    var thumbnailRecords: seq<nat>
    var anchors: seq<nat>
    var hasRule: bool
    /** `LevelCache.BuiltInLevelIds.length` */
    const builtInCount: nat

    /** The lists are empty and there is no rule yet (lines 78-83). */
    constructor(builtInCount: nat)
      ensures thumbnails == [] && thumbnailImages == [] && thumbnailRecords == [] && anchors == []
      ensures !hasRule && this.builtInCount == builtInCount && Valid()
    {
      thumbnails := [];
      thumbnailImages := [];
      thumbnailRecords := [];
      anchors := [];
      hasRule := false;
      this.builtInCount := builtInCount;
    }

    /** The i-th entry of each list belongs to the i-th thumbnail. */
    predicate Valid()
      reads this`thumbnails, this`thumbnailImages, this`thumbnailRecords, this`anchors
    {
      |thumbnailImages| == |thumbnails| && |thumbnailRecords| == |thumbnails| && |anchors| == |thumbnails|
    }

    /** The end of `createThumbnail` (lines 199-207): the elements of a new thumbnail appended; a saved level brings the rule. */
    method AddThumbnail(thumbnail: nat, image: nat, record: nat, anchor: nat, builtInLevel: bool)
      requires Valid()
      modifies this`thumbnails, this`thumbnailImages, this`thumbnailRecords, this`anchors, this`hasRule
      ensures thumbnails == old(thumbnails) + [thumbnail] && thumbnailImages == old(thumbnailImages) + [image]
      ensures thumbnailRecords == old(thumbnailRecords) + [record] && anchors == old(anchors) + [anchor]
      ensures hasRule == (old(hasRule) || !builtInLevel)
      ensures Valid()
    {
      thumbnails := thumbnails + [thumbnail];
      thumbnailImages := thumbnailImages + [image];
      thumbnailRecords := thumbnailRecords + [record];
      anchors := anchors + [anchor];
      if !builtInLevel && !hasRule {
        hasRule := true;
      }
    }

    /**
     * The removal of a deleted level's thumbnail (lines 467-478): the last
     * entry whose anchor is `anchor` is removed from all four lists; the
     * rule goes when only the built-in levels are left. Nothing changes
     * when no anchor matches.
     */
    method RemoveThumbnail(anchor: nat)
      requires Valid()
      modifies this`thumbnails, this`thumbnailImages, this`thumbnailRecords, this`anchors, this`hasRule
      ensures var i := LastIndex(old(anchors), anchor);
        && (i < 0 ==> thumbnails == old(thumbnails) && thumbnailImages == old(thumbnailImages)
                      && thumbnailRecords == old(thumbnailRecords) && anchors == old(anchors) && hasRule == old(hasRule))
        && (i >= 0 ==> thumbnails == Without(old(thumbnails), i) && thumbnailImages == Without(old(thumbnailImages), i)
                       && thumbnailRecords == Without(old(thumbnailRecords), i) && anchors == Without(old(anchors), i)
                       && hasRule == (old(hasRule) && |anchors| != builtInCount))
      ensures Valid()
    {
      var i := |anchors| - 1;
      while i >= 0
        invariant -1 <= i < |anchors|
        invariant forall j :: i < j < |anchors| ==> anchors[j] != anchor
      {
        if anchors[i] == anchor {
          LastIndexIs(anchors, anchor, i);
          thumbnails := thumbnails[..i] + thumbnails[i + 1..];
          thumbnailImages := thumbnailImages[..i] + thumbnailImages[i + 1..];
          thumbnailRecords := thumbnailRecords[..i] + thumbnailRecords[i + 1..];
          anchors := anchors[..i] + anchors[i + 1..];
          if |anchors| == builtInCount && hasRule {
            hasRule := false;
          }
          return;
        }
        i := i - 1;
      }
      LastIndexAbsent(anchors, anchor);
    }
  }
}
