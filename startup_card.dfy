/**
 * The startup card: the logo chosen from keywords in the title, and the
 * width of the funding progress bar, capped at 100 percent.
 */
module StartupCard {
  import opened Wrappers
  import opened RealMath
  import opened Text

  /** The five card images, named after their assets. */
  datatype Logo = Sun | Startup2 | Startup3 | SuccessGraph | Startup1

  const EcoWords: seq<string> := ["eco", "green", "clean", "energy", "solar", "env"]
  const HealthWords: seq<string> := ["med", "health", "bio", "chain"]
  const LearningWords: seq<string> := ["learn", "edu", "school", "teach", "decentr"]
  const FinanceWords: seq<string> := ["fin", "pay", "money", "invest", "fund"]

  /** `/(w1|w2|...)/.test(t)`: one of the words occurs somewhere in `t`. */
  predicate MatchesAny(t: string, words: seq<string>) {
    words != [] && (Contains(t, words[0]) || MatchesAny(t, words[1..]))
  }

  /** The alternation holds exactly when some listed word occurs in the text. */
  lemma {:induction false} MatchesAnyIff(t: string, words: seq<string>)
    ensures MatchesAny(t, words) <==> exists w :: w in words && Contains(t, w)
  {
    if words == [] {
      assert forall w :: w !in words;
    } else {
      MatchesAnyIff(t, words[1..]);
      if Contains(t, words[0]) {
        assert words[0] in words;
      } else {
        forall w | w in words && Contains(t, w) ensures w in words[1..] {
          assert words == [words[0]] + words[1..];
        }
      }
    }
  }

  /** A word matched at position `i` of the list makes the alternation hold. */
  lemma {:induction false} MatchesWordAt(t: string, words: seq<string>, i: nat)
    requires i < |words| && Contains(t, words[i])
    ensures MatchesAny(t, words)
  {
    if i > 0 {
      MatchesWordAt(t, words[1..], i - 1);
    }
  }

  /** `(text || '').toLowerCase()`: a missing or empty title becomes the empty string. */
  function LogoText(title: Option<string>): (t: string)
    ensures title.None? ==> t == ""
    ensures title.Some? ==> t == ToLower(title.value)
  {
    ToLower(title.GetOr(""))
  }

  /** The first keyword group that occurs in the lower-cased title decides the logo. */
  function PickLogo(title: Option<string>): (logo: Logo)
    ensures var t := LogoText(title);
      && (logo == Sun <==> MatchesAny(t, EcoWords))
      && (logo == Startup2 <==> !MatchesAny(t, EcoWords) && MatchesAny(t, HealthWords))
      && (logo == Startup3 <==> !MatchesAny(t, EcoWords) && !MatchesAny(t, HealthWords) && MatchesAny(t, LearningWords))
      && (logo == SuccessGraph <==> !MatchesAny(t, EcoWords) && !MatchesAny(t, HealthWords)
                                     && !MatchesAny(t, LearningWords) && MatchesAny(t, FinanceWords))
      && (logo == Startup1 <==> !MatchesAny(t, EcoWords) && !MatchesAny(t, HealthWords)
                                 && !MatchesAny(t, LearningWords) && !MatchesAny(t, FinanceWords))
  {
    var t := LogoText(title);
    if MatchesAny(t, EcoWords) then Sun
    else if MatchesAny(t, HealthWords) then Startup2
    else if MatchesAny(t, LearningWords) then Startup3
    else if MatchesAny(t, FinanceWords) then SuccessGraph
    else Startup1
  }

  /** No keyword occurs in the empty string. */
  lemma {:induction false} NothingInEmpty(words: seq<string>)
    requires forall i :: 0 <= i < |words| ==> words[i] != ""
    ensures !MatchesAny("", words)
  {
    if words != [] {
      NothingInEmpty(words[1..]);
    }
  }

  /** A missing or empty title gets the generic logo. */
  lemma NoTitleIsGeneric()
    ensures PickLogo(None) == Startup1
    ensures PickLogo(Some("")) == Startup1
  {
    NothingInEmpty(EcoWords);
    NothingInEmpty(HealthWords);
    NothingInEmpty(LearningWords);
    NothingInEmpty(FinanceWords);
  }

  /** The choice ignores ASCII case: upper-casing letters of the title changes nothing. */
  lemma PickLogoIgnoresCase(title: string)
    ensures PickLogo(Some(ToLower(title))) == PickLogo(Some(title))
  {
    ToLowerIdempotent(title);
  }

  /** A string without upper-case letters is its own lower-case form. */
  lemma LowerFixed(s: string)
    requires forall i :: 0 <= i < |s| ==> !('A' <= s[i] <= 'Z')
    ensures ToLower(s) == s
  {
    assert forall i :: 0 <= i < |s| ==> ToLower(s)[i] == s[i];
  }

  /** Earlier groups win: "green chain" holds an eco word and a health word, and shows the sun. */
  lemma EcoBeatsChain()
    ensures MatchesAny(LogoText(Some("green chain")), HealthWords)
    ensures PickLogo(Some("green chain")) == Sun
  {
    var green, chain := "green", "chain";
    var t := green + " " + chain;
    assert t == "green chain";
    LowerFixed(t);
    assert t[..|green|] == green;
    assert t[|green| + 1..] == chain;
    assert OccursAt(t, green, 0);
    assert OccursAt(t, chain, |green| + 1);
    ContainsAt(t, green);
    ContainsAt(t, chain);
    MatchesWordAt(t, EcoWords, 1);
    MatchesWordAt(t, HealthWords, 3);
  }

  /** An IEEE double as far as the percentage can produce one: a finite value, an infinity or NaN. */
  datatype Number = Finite(value: real) | PosInfinity | NegInfinity | NaN

  /** `(raised / goal) * 100`; dividing by a zero goal gives an infinity, or NaN when nothing is raised. */
  function PercentRaised(goal: real, raised: real): (p: Number)
    ensures goal != 0.0 ==> p == Finite(raised / goal * 100.0)
    ensures goal == 0.0 ==> (p.PosInfinity? <==> raised > 0.0) && (p.NegInfinity? <==> raised < 0.0)
                            && (p.NaN? <==> raised == 0.0)
  {
    if goal != 0.0 then Finite(raised / goal * 100.0)
    else if raised > 0.0 then PosInfinity
    else if raised < 0.0 then NegInfinity
    else NaN
  }

  /** `percentRaised > 100 ? 100 : percentRaised`; NaN compares false and passes through. */
  function BarWidth(percent: Number): (w: Number)
    ensures w.Finite? ==> w.value <= 100.0
    ensures w.PosInfinity? ==> false
    ensures percent.Finite? && percent.value <= 100.0 ==> w == percent
    ensures (percent.Finite? && percent.value > 100.0) || percent.PosInfinity? ==> w == Finite(100.0)
    ensures percent.NaN? || percent.NegInfinity? ==> w == percent
  {
    match percent
    case Finite(v) => if v > 100.0 then Finite(100.0) else percent
    case PosInfinity => Finite(100.0)
    case _ => percent
  }

  /** For a positive goal the bar is `min(raised / goal * 100, 100)` percent wide. */
  lemma BarWidthPositiveGoal(goal: real, raised: real)
    requires goal > 0.0
    ensures BarWidth(PercentRaised(goal, raised)) == Finite(Min(raised / goal * 100.0, 100.0))
    ensures raised >= 0.0 ==> 0.0 <= BarWidth(PercentRaised(goal, raised)).value <= 100.0
  {
    if raised >= 0.0 {
      assert raised / goal >= 0.0;
    }
  }
}
