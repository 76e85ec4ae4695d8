/**
 * Mood levels and their properties: the validated list of (level, name) pairs,
 * the colour palette, and the numeric band each level owns.
 */
module Config {
  import opened Wrappers

  /** A field of a user-supplied mood tuple: a number or a piece of text. */
  datatype Field = Int(i: int) | Text(s: string)

  /** A user-supplied mood tuple; a well-formed one is `[Int(level), Text(name)]`. */
  type MoodTuple = seq<Field>

  /** A half-open interval [lower, upper). */
  datatype Interval = Interval(lower: real, upper: real)

  datatype Mood = Mood(name: string, level: int, color: string, boundaries: Interval)

  /** The ValueError raised by validation, by cause. */
  datatype ConfigError =
    | BadArity(size: nat)
    | BadLevel(level: Field)
    | MissingLevels
    | BadPalette(size: nat)

  /** The KeyError raised by a lookup of an unconfigured name. */
  datatype LookupError = MoodNotFound(name: string)

  const DefaultMoods: seq<MoodTuple> := [
    [Int(1), Text("awful")],
    [Int(2), Text("bad")],
    [Int(3), Text("meh")],
    [Int(4), Text("good")],
    [Int(5), Text("rad")]
  ]

  const DefaultPalette: seq<string> := ["#6C7679", "#5579A7", "#9454A3", "#4CA369", "#FF8500"]

  const AllLevels: set<int> := {1, 2, 3, 4, 5}

  // ---------------------------------------------------------------------------
  // Validation

  /** The check applied to one tuple: exactly two fields, the first a level in 1..5. */
  function CheckTuple(t: MoodTuple): Outcome<ConfigError>
  {
    if |t| != 2 then Fail(BadArity(|t|))
    else if !(t[0].Int? && 1 <= t[0].i <= 5) then Fail(BadLevel(t[0]))
    else Pass
  }

  predicate TupleOk(t: MoodTuple)
  {
    |t| == 2 && t[0].Int? && 1 <= t[0].i <= 5
  }

  /** The levels named by the tuples of a list. */
  function Levels(list: seq<MoodTuple>): set<int>
  {
    set k | 0 <= k < |list| && |list[k]| > 0 && list[k][0].Int? :: list[k][0].i
  }

  /** The first failing tuple's error, if any tuple fails. */
  function CheckTuples(list: seq<MoodTuple>): Outcome<ConfigError>
  {
    if list == [] then Pass
    else if CheckTuple(list[0]).Fail? then CheckTuple(list[0])
    else CheckTuples(list[1..])
  }

  /** What validation of a mood list raises, or Pass. */
  function CheckMoodList(list: seq<MoodTuple>): Outcome<ConfigError>
  {
    if CheckTuples(list).Fail? then CheckTuples(list)
    else if Levels(list) != AllLevels then Fail(MissingLevels)
    else Pass
  }

  function CheckPalette(palette: seq<string>): Outcome<ConfigError>
  {
    if |palette| == 5 then Pass else Fail(BadPalette(|palette|))
  }

  /** A mood list is accepted exactly when every tuple is well formed and all five levels occur. */
  predicate MoodListValid(list: seq<MoodTuple>)
  {
    (forall k :: 0 <= k < |list| ==> TupleOk(list[k])) && Levels(list) == AllLevels
  }

  lemma {:induction false} CheckTuplesPass(list: seq<MoodTuple>)
    ensures CheckTuples(list).Pass? <==> forall k :: 0 <= k < |list| ==> TupleOk(list[k])
    ensures CheckTuples(list).Fail? ==>
              exists k :: 0 <= k < |list| && CheckTuples(list) == CheckTuple(list[k]) && !TupleOk(list[k])
                && forall j :: 0 <= j < k ==> TupleOk(list[j])
  {
    if list != [] {
      CheckTuplesPass(list[1..]);
      if CheckTuple(list[0]).Pass? && CheckTuples(list[1..]).Fail? {
        var k :| 0 <= k < |list[1..]| && CheckTuples(list[1..]) == CheckTuple(list[1..][k]) && !TupleOk(list[1..][k])
                 && forall j :: 0 <= j < k ==> TupleOk(list[1..][j]);
        assert list[k + 1] == list[1..][k];
        forall j | 0 <= j < k + 1 ensures TupleOk(list[j]) {
          if j > 0 { assert list[j] == list[1..][j - 1]; }
        }
      }
      if CheckTuple(list[0]).Pass? && CheckTuples(list[1..]).Pass? {
        forall k | 0 <= k < |list| ensures TupleOk(list[k]) {
          if k > 0 { assert list[k] == list[1..][k - 1]; }
        }
      }
    }
  }

  /**
   * Mood-list validation passes exactly for valid lists; otherwise it reports the
   * first malformed tuple, or the missing levels when every tuple is well formed.
   */
  lemma CheckMoodListSpec(list: seq<MoodTuple>)
    ensures CheckMoodList(list).Pass? <==> MoodListValid(list)
    ensures CheckMoodList(list) == Fail(MissingLevels) <==>
              (forall k :: 0 <= k < |list| ==> TupleOk(list[k])) && Levels(list) != AllLevels
    ensures CheckMoodList(list).Fail? && !CheckMoodList(list).error.MissingLevels? ==>
              exists k :: 0 <= k < |list| && CheckMoodList(list) == CheckTuple(list[k])
                && forall j :: 0 <= j < k ==> TupleOk(list[j])
  {
    CheckTuplesPass(list);
  }

  /** Loop form of the mood-list validation: the first bad tuple raises; then the level set is compared. */
  method ValidateMoodList(list: seq<MoodTuple>) returns (o: Outcome<ConfigError>)
    ensures o == CheckMoodList(list)
  {
    var k := 0;
    while k < |list|
      invariant 0 <= k <= |list|
      invariant forall j :: 0 <= j < k ==> TupleOk(list[j])
      invariant CheckTuples(list) == CheckTuples(list[k..])
    {
      assert list[k..][1..] == list[k + 1..];
      var t := list[k];
      if |t| != 2 {
        return Fail(BadArity(|t|));
      }
      if !(t[0].Int? && 1 <= t[0].i <= 5) {
        return Fail(BadLevel(t[0]));
      }
      k := k + 1;
    }
    var levels := set j | 0 <= j < |list| :: list[j][0].i;
    assert levels == Levels(list);
    if levels != AllLevels {
      return Fail(MissingLevels);
    }
    return Pass;
  }

  method ValidatePalette(palette: seq<string>) returns (o: Outcome<ConfigError>)
    ensures o.Pass? <==> |palette| == 5
    ensures o.Fail? ==> o.error == BadPalette(|palette|)
  {
    if |palette| != 5 {
      return Fail(BadPalette(|palette|));
    }
    return Pass;
  }

  /** Both validations, the mood list first: what loading raises, or Pass. */
  function CheckLoad(list: seq<MoodTuple>, palette: seq<string>): Outcome<ConfigError>
  {
    if CheckMoodList(list).Fail? then CheckMoodList(list) else CheckPalette(palette)
  }

  // ---------------------------------------------------------------------------
  // Boundaries and moods

  /** The band owned by a level: [1, 1.5) for 1, [4.5, 5.01) for 5, [L - 0.5, L + 0.5) otherwise. */
  function Boundaries(level: int): Interval
  {
    if level == 1 then Interval(1.0, 1.5)
    else if level == 5 then Interval(4.5, 5.01)
    else Interval(level as real - 1.0 + 0.5, level as real - 1.0 + 1.5)
  }

  predicate InBand(v: real, b: Interval)
  {
    b.lower <= v < b.upper
  }

  /** Adjacent levels share an endpoint, so the five bands tile [1, 5.01) without gaps or overlaps. */
  lemma BandsTile()
    ensures Boundaries(1).lower == 1.0 && Boundaries(5).upper == 5.01
    ensures forall l :: 1 <= l < 5 ==> Boundaries(l).upper == Boundaries(l + 1).lower
    ensures forall l :: 1 <= l <= 5 ==> Boundaries(l).lower < Boundaries(l).upper
  {
  }

  /** The level whose band holds `v`; it is the only one. */
  function LevelOf(v: real): (l: int)
    requires 1.0 <= v < 5.01
    ensures 1 <= l <= 5 && InBand(v, Boundaries(l))
    ensures forall l' :: 1 <= l' <= 5 && InBand(v, Boundaries(l')) ==> l' == l
  {
    if v < 1.5 then 1 else if v < 2.5 then 2 else if v < 3.5 then 3 else if v < 4.5 then 4 else 5
  }

  /** A value on a shared endpoint belongs to the upper of the two bands. */
  lemma EndpointGoesUp(l: int)
    requires 2 <= l <= 5
    ensures LevelOf(l as real - 0.5) == l
  {
  }

  /** The mood built from a validated tuple: colour palette[level - 1], boundaries from the level. */
  function MakeMood(t: MoodTuple, palette: seq<string>): (m: Mood)
    requires TupleOk(t) && t[1].Text? && |palette| == 5
    ensures m.level == t[0].i && m.name == t[1].s && m.color == palette[m.level - 1]
  {
    var level := t[0].i;
    Mood(t[1].s, level, palette[level - 1], Boundaries(level))
  }

  /** The names in the second position are text (the declared tuple type). */
  predicate NamesAreText(list: seq<MoodTuple>)
  {
    forall k :: 0 <= k < |list| && |list[k]| >= 2 ==> list[k][1].Text?
  }

  /** The moods of a validated list, in list order. */
  function BuildMoods(list: seq<MoodTuple>, palette: seq<string>): (ms: seq<Mood>)
    requires MoodListValid(list) && NamesAreText(list) && |palette| == 5
  {
    seq(|list|, k requires 0 <= k < |list| => MakeMood(list[k], palette))
  }

  /** The name index: each name maps to the last mood in the list that carries it. */
  function IndexOf(ms: seq<Mood>): map<string, Mood>
  {
    if ms == [] then map[] else IndexOf(ms[..|ms| - 1])[ms[|ms| - 1].name := ms[|ms| - 1]]
  }

  predicate HasLevel(ms: seq<Mood>, l: int)
  {
    exists k :: 0 <= k < |ms| && ms[k].level == l
  }

  /** A list of moods is a loaded configuration: bands from levels, all five levels, one colour per level. */
  ghost predicate WellFormedMoods(ms: seq<Mood>)
  {
    && (forall k :: 0 <= k < |ms| ==> 1 <= ms[k].level <= 5 && ms[k].boundaries == Boundaries(ms[k].level))
    && (forall l :: 1 <= l <= 5 ==> HasLevel(ms, l))
    && (forall j, k :: 0 <= j < |ms| && 0 <= k < |ms| && ms[j].level == ms[k].level ==> ms[j].color == ms[k].color)
  }

  /**
   * The index has exactly the list's names as keys, and each name maps to the
   * last mood in the list with that name.
   */
  lemma {:induction false} IndexOfSpec(ms: seq<Mood>, name: string)
    ensures name in IndexOf(ms) <==> exists k :: 0 <= k < |ms| && ms[k].name == name
    ensures name in IndexOf(ms) ==>
              exists k :: 0 <= k < |ms| && ms[k] == IndexOf(ms)[name] && ms[k].name == name
                && forall j :: k < j < |ms| ==> ms[j].name != name
  {
    if ms != [] {
      var init := ms[..|ms| - 1];
      IndexOfSpec(init, name);
      if ms[|ms| - 1].name != name {
        if name in IndexOf(init) {
          var k :| 0 <= k < |init| && init[k] == IndexOf(init)[name] && init[k].name == name
                   && forall j :: k < j < |init| ==> init[j].name != name;
          assert ms[k] == init[k];
        }
        if exists k :: 0 <= k < |ms| && ms[k].name == name {
          var k :| 0 <= k < |ms| && ms[k].name == name;
          assert init[k] == ms[k];
        }
      }
    }
  }

  /** A validated list yields well-formed moods, in list order, one per tuple. */
  lemma BuildMoodsWellFormed(list: seq<MoodTuple>, palette: seq<string>)
    requires MoodListValid(list) && NamesAreText(list) && |palette| == 5
    ensures |BuildMoods(list, palette)| == |list|
    ensures WellFormedMoods(BuildMoods(list, palette))
  {
    var ms := BuildMoods(list, palette);
    forall l | 1 <= l <= 5 ensures HasLevel(ms, l) {
      assert l in Levels(list);
      var k :| 0 <= k < |list| && |list[k]| > 0 && list[k][0].Int? && list[k][0].i == l;
      assert ms[k].level == l;
    }
  }

  // ---------------------------------------------------------------------------
  // The configuration object

  class MoodConfig {
    var moods: seq<Mood>
    var index: map<string, Mood>

    /** A loaded configuration: well-formed moods and an index that agrees with them. */
    ghost predicate Valid()
      reads this
    {
      WellFormedMoods(moods) && index == IndexOf(moods)
    }

    /** The empty state the object starts in before its first load. */
    constructor Empty()
      ensures moods == [] && index == map[]
    {
      moods := [];
      index := map[];
    }

    /**
     * Validate both inputs, then (and only then) replace the moods and the
     * index. On failure nothing changes.
     */
    method LoadMoods(list: seq<MoodTuple>, palette: seq<string>) returns (o: Outcome<ConfigError>)
      requires MoodListValid(list) ==> NamesAreText(list)
      modifies this
      ensures o == CheckLoad(list, palette)
      ensures o.Fail? ==> moods == old(moods) && index == old(index)
      ensures o.Pass? ==> MoodListValid(list) && |palette| == 5
                            && moods == BuildMoods(list, palette) && index == IndexOf(moods) && Valid()
    {
      o := ValidateMoodList(list);
      if o.Fail? {
        return;
      }
      o := ValidatePalette(palette);
      if o.Fail? {
        return;
      }
      CheckMoodListSpec(list);
      moods := [];
      index := map[];
      var k := 0;
      while k < |list|
        invariant 0 <= k <= |list|
        invariant moods == BuildMoods(list, palette)[..k]
        invariant index == IndexOf(moods)
      {
        var level, name := list[k][0].i, list[k][1].s;
        var mood := Mood(name, level, palette[level - 1], Boundaries(level));
        assert BuildMoods(list, palette)[..k + 1] == moods + [mood];
        moods := moods + [mood];
        index := index[name := mood];
        k := k + 1;
      }
      assert moods == BuildMoods(list, palette);
      BuildMoodsWellFormed(list, palette);
    }

    /** __init__: a missing or empty list or palette falls back to the defaults. */
    static method New(list: Option<seq<MoodTuple>> := None, palette: Option<seq<string>> := None)
      returns (r: Result<MoodConfig, ConfigError>)
      requires list.Some? ==> (MoodListValid(list.value) ==> NamesAreText(list.value))
      ensures var l := EffectiveList(list);
              var p := EffectivePalette(palette);
              && (r.Success? <==> CheckLoad(l, p).Pass?)
              && (r.Failure? ==> CheckLoad(l, p) == Fail(r.error))
              && (r.Success? ==> MoodListValid(l) && NamesAreText(l) && |p| == 5)
              && (r.Success? ==> fresh(r.value) && r.value.Valid() && r.value.moods == BuildMoods(l, p))
    {
      var config := new MoodConfig.Empty();
      var o := config.LoadMoods(EffectiveList(list), EffectivePalette(palette));
      if o.Fail? {
        return Failure(o.error);
      }
      return Success(config);
    }

    /**
     * from_list: reload from a new list, all or nothing. A missing or empty
     * palette means the default one.
     */
    method FromList(list: seq<MoodTuple>, palette: Option<seq<string>> := None) returns (o: Outcome<ConfigError>)
      requires MoodListValid(list) ==> NamesAreText(list)
      modifies this
      ensures o == CheckLoad(list, EffectivePalette(palette))
      ensures o.Fail? ==> moods == old(moods) && index == old(index)
      ensures o.Pass? ==> MoodListValid(list) && |EffectivePalette(palette)| == 5
      ensures o.Pass? ==> Valid() && moods == BuildMoods(list, EffectivePalette(palette))
    {
      o := LoadMoods(list, EffectivePalette(palette));
    }

    /** get: the last configured mood with this name; an unknown name raises. */
    function Get(name: string): (r: Result<Mood, LookupError>)
      reads this
      requires Valid()
      ensures r.Success? <==> exists k :: 0 <= k < |moods| && moods[k].name == name
      ensures r.Failure? ==> r.error == MoodNotFound(name)
      ensures r.Success? ==> exists k :: 0 <= k < |moods| && moods[k] == r.value && r.value.name == name
                               && forall j :: k < j < |moods| ==> moods[j].name != name
    {
      IndexOfSpec(moods, name);
      if name in index then Success(index[name]) else Failure(MoodNotFound(name))
    }
  }

  /** `not mood_list`: a missing or empty list means the default moods. */
  function EffectiveList(list: Option<seq<MoodTuple>>): (l: seq<MoodTuple>)
    ensures list.Some? && list.value != [] ==> l == list.value
    ensures list.None? || list.value == [] ==> l == DefaultMoods
  {
    if list.None? || list.value == [] then DefaultMoods else list.value
  }

  /** `not color_palette`: a missing or empty palette means the default palette. */
  function EffectivePalette(palette: Option<seq<string>>): (p: seq<string>)
    ensures palette.Some? && palette.value != [] ==> p == palette.value
    ensures palette.None? || palette.value == [] ==> p == DefaultPalette
  {
    if palette.None? || palette.value == [] then DefaultPalette else palette.value
  }

  // ---------------------------------------------------------------------------
  // The documented configurations

  /** The default list loads into awful, bad, meh, good and rad with their bands and colours. */
  lemma DefaultMoodsLoad()
    ensures CheckLoad(DefaultMoods, DefaultPalette) == Pass
    ensures MoodListValid(DefaultMoods) && NamesAreText(DefaultMoods)
    ensures BuildMoods(DefaultMoods, DefaultPalette) == [
              Mood("awful", 1, "#6C7679", Interval(1.0, 1.5)),
              Mood("bad", 2, "#5579A7", Interval(1.5, 2.5)),
              Mood("meh", 3, "#9454A3", Interval(2.5, 3.5)),
              Mood("good", 4, "#4CA369", Interval(3.5, 4.5)),
              Mood("rad", 5, "#FF8500", Interval(4.5, 5.01))]
  {
    assert forall k :: 0 <= k < 5 ==> DefaultMoods[k][0].i == k + 1;
    assert forall l :: l in Levels(DefaultMoods) ==> l in AllLevels;
    forall l | l in AllLevels ensures l in Levels(DefaultMoods) {
      assert DefaultMoods[l - 1][0].i == l;
    }
    assert Levels(DefaultMoods) == AllLevels;
    CheckMoodListSpec(DefaultMoods);
  }

  /** Looking up "good" in the default moods gives level 4, its colour and the band [3.5, 4.5). */
  lemma DefaultLookup()
    ensures MoodListValid(DefaultMoods) && NamesAreText(DefaultMoods)
    ensures "good" in IndexOf(BuildMoods(DefaultMoods, DefaultPalette))
    ensures IndexOf(BuildMoods(DefaultMoods, DefaultPalette))["good"] == Mood("good", 4, "#4CA369", Interval(3.5, 4.5))
    ensures "this does not exist" !in IndexOf(BuildMoods(DefaultMoods, DefaultPalette))
  {
    DefaultMoodsLoad();
    var ms := BuildMoods(DefaultMoods, DefaultPalette);
    IndexOfSpec(ms, "this does not exist");
    IndexOfSpec(ms, "good");
    assert ms[3].name == "good" && ms[4].name == "rad";
  }

  /** The rejected lists of the configuration's documented cases, each with its cause. */
  lemma RejectedConfigurations()
    ensures CheckLoad([[Int(1), Text("bad"), Text("red")]], DefaultPalette) == Fail(BadArity(3))
    ensures CheckLoad([[Text("bad")], [Text("almost bad")]], DefaultPalette) == Fail(BadArity(1))
    ensures CheckLoad([[Int(1), Text("bad")], [Int(2), Text("almost bad")], [Int(3), Text("neutral")],
                       [Int(4), Text("almost good")], [Int(4), Text("good")]], DefaultPalette) == Fail(MissingLevels)
    ensures CheckLoad([[Int(1), Text("bad")], [Int(2), Text("almost bad")], [Int(3), Text("neutral")],
                       [Int(4), Text("almost good")], [Int(5), Text("good")], [Int(6), Text("rad")]], DefaultPalette)
            == Fail(BadLevel(Int(6)))
    ensures CheckLoad(DefaultMoods, ["red"]) == Fail(BadPalette(1))
  {
    var missing: seq<MoodTuple> := [[Int(1), Text("bad")], [Int(2), Text("almost bad")], [Int(3), Text("neutral")],
                                    [Int(4), Text("almost good")], [Int(4), Text("good")]];
    assert 5 !in Levels(missing);
    CheckTuplesPass(missing);
    DefaultMoodsLoad();
  }
  /**
   * Lists whose second fields are not text are still validated and rejected,
   * so they are inside the domain of LoadMoods, New and FromList.
   */
  lemma MalformedNamesRejected()
    ensures !MoodListValid([[Int(1), Int(2), Int(3)]])
            && CheckLoad([[Int(1), Int(2), Int(3)]], DefaultPalette) == Fail(BadArity(3))
    ensures !MoodListValid([[Text("x"), Int(5)]])
            && CheckLoad([[Text("x"), Int(5)]], DefaultPalette) == Fail(BadLevel(Text("x")))
  {
    CheckMoodListSpec([[Int(1), Int(2), Int(3)]]);
    CheckMoodListSpec([[Text("x"), Int(5)]]);
  }

}
