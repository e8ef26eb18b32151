/** The computations of the detail panel (components/InfoPanel.tsx): the
    de-duplicated list of data-source keys shown under a unit, and the sign
    and colour of each factor's points. */
module InfoPanel {
  import opened Types
  import Seqs
  import Text
  import RiskCalculator

  // ---------------------------------------------------------------------
  // Source keys
  // ---------------------------------------------------------------------

  /** The placeholder key meaning "no source available". */
  const NoSourceKey: string := "src_na"

  /** `[history.sources, weather.sources].join(',')`. */
  function CombinedSources(historySources: string, weatherSources: string): (r: string)
    ensures Text.Split(r, ',') == Text.Split(historySources, ',') + Text.Split(weatherSources, ',')
  {
    var parts := [historySources, weatherSources];
    assert parts[1..] == [weatherSources];
    assert Text.Join(parts, ',') == historySources + [','] + weatherSources;
    Text.SplitConcat(historySources, weatherSources, ',');
    Text.Join(parts, ',')
  }

  /** A trimmed token is kept when it is non-empty and not the placeholder
      in any letter case; `lower` stands for `toLowerCase`. */
  predicate Keep(token: string, lower: string -> string) {
    token != "" && lower(token) != NoSourceKey
  }

  /** Each token trimmed, in order; `trim` stands for `String.prototype.trim`. */
  function TrimAll(tokens: seq<string>, trim: string -> string): (r: seq<string>)
    ensures |r| == |tokens|
    ensures forall i :: 0 <= i < |r| ==> r[i] == trim(tokens[i])
  {
    if |tokens| == 0 then [] else TrimAll(tokens[..|tokens| - 1], trim) + [trim(tokens[|tokens| - 1])]
  }

  /** The kept tokens, in order. */
  function KeepAll(tokens: seq<string>, lower: string -> string): seq<string> {
    if |tokens| == 0 then []
    else KeepAll(tokens[..|tokens| - 1], lower) + (if Keep(tokens[|tokens| - 1], lower) then [tokens[|tokens| - 1]] else [])
  }

  /** Exactly the kept tokens survive. */
  lemma {:induction false} KeepAllMembers(tokens: seq<string>, lower: string -> string)
    ensures forall t :: t in KeepAll(tokens, lower) <==> t in tokens && Keep(t, lower)
  {
    if |tokens| > 0 {
      var front := tokens[..|tokens| - 1];
      KeepAllMembers(front, lower);
      assert tokens == front + [tokens[|tokens| - 1]];
    }
  }

  /** No value occurs twice. */
  predicate NoDuplicates<T(==)>(xs: seq<T>) {
    forall i, j :: 0 <= i < j < |xs| ==> xs[i] != xs[j]
  }

  /** `[...new Set(xs)]`: each value once, in the order it was first inserted. */
  function Dedup<T(==)>(xs: seq<T>): seq<T> {
    if |xs| == 0 then []
    else
      var d := Dedup(xs[..|xs| - 1]);
      var x := xs[|xs| - 1];
      if x in d then d else d + [x]
  }

  /** The de-duplicated list holds exactly the input's values. */
  lemma {:induction false} DedupMembers<T>(xs: seq<T>)
    ensures forall x :: x in Dedup(xs) <==> x in xs
  {
    if |xs| > 0 {
      var front := xs[..|xs| - 1];
      DedupMembers(front);
      assert xs == front + [xs[|xs| - 1]];
    }
  }

  /** The de-duplicated list holds each value once. */
  lemma {:induction false} DedupNoDuplicates<T>(xs: seq<T>)
    ensures NoDuplicates(Dedup(xs))
  {
    if |xs| > 0 {
      var front := xs[..|xs| - 1];
      DedupNoDuplicates(front);
    }
  }

  /** The de-duplicated list orders values by where they first occur. */
  lemma {:induction false} DedupOrder<T>(xs: seq<T>)
    ensures forall x :: x in Dedup(xs) ==> x in xs
    ensures forall i, j :: 0 <= i < j < |Dedup(xs)| ==> Seqs.IndexOf(xs, Dedup(xs)[i]) < Seqs.IndexOf(xs, Dedup(xs)[j])
  {
    DedupMembers(xs);
    if |xs| > 0 {
      var front, x := xs[..|xs| - 1], xs[|xs| - 1];
      DedupOrder(front);
      var d := Dedup(front);
      forall y | y in d ensures Seqs.IndexOf(xs, y) == Seqs.IndexOf(front, y) {
        Seqs.IndexOfInPrefix(xs, y, |xs| - 1);
      }
      if x !in d {
        var r := d + [x];
        DedupMembers(front);
        assert x !in front;
        assert Seqs.IndexOf(xs, x) == |xs| - 1 by {
          assert forall k :: 0 <= k < |xs| - 1 ==> xs[k] == front[k];
        }
        forall i, j | 0 <= i < j < |r|
          ensures Seqs.IndexOf(xs, r[i]) < Seqs.IndexOf(xs, r[j])
        {
          assert r[i] == d[i] && r[i] in d;
          if j < |d| {
            assert r[j] == d[j] && r[j] in d;
          }
        }
      }
    }
  }

  /** `uniqueSourceKeys`: the comma-separated tokens of both source lists,
      trimmed, without empty and placeholder tokens, each kept once at its
      first occurrence. */
  function UniqueSourceKeys(historySources: string, weatherSources: string,
                            trim: string -> string, lower: string -> string): seq<string> {
    Dedup(KeepAll(TrimAll(Text.Split(CombinedSources(historySources, weatherSources), ','), trim), lower))
  }

  /** The candidate keys: every trimmed token of both lists that is kept,
      in the order they are listed. */
  function KeptTokens(historySources: string, weatherSources: string,
                      trim: string -> string, lower: string -> string): seq<string> {
    KeepAll(TrimAll(Text.Split(historySources, ',') + Text.Split(weatherSources, ','), trim), lower)
  }

  /** A value is a trimmed token exactly when some token trims to it. */
  lemma TrimAllMembers(tokens: seq<string>, trim: string -> string, k: string)
    ensures k in TrimAll(tokens, trim) <==> exists t :: t in tokens && trim(t) == k
  {
    var trimmed := TrimAll(tokens, trim);
    if k in trimmed {
      var i :| 0 <= i < |trimmed| && trimmed[i] == k;
      assert tokens[i] in tokens;
    }
    if exists t :: t in tokens && trim(t) == k {
      var t :| t in tokens && trim(t) == k;
      var i :| 0 <= i < |tokens| && tokens[i] == t;
      assert trimmed[i] == k;
    }
  }

  /** A key is shown exactly when some token of either list trims to it and
      the trimmed value is kept. */
  lemma KeyMembers(historySources: string, weatherSources: string,
                   trim: string -> string, lower: string -> string, k: string)
    ensures var tokens := Text.Split(historySources, ',') + Text.Split(weatherSources, ',');
      (k in UniqueSourceKeys(historySources, weatherSources, trim, lower))
        <==> (exists t :: t in tokens && trim(t) == k) && Keep(k, lower)
  {
    var tokens := Text.Split(historySources, ',') + Text.Split(weatherSources, ',');
    var kept := KeptTokens(historySources, weatherSources, trim, lower);
    UniqueSourceKeysDedup(historySources, weatherSources, trim, lower);
    DedupMembers(kept);
    KeepAllMembers(TrimAll(tokens, trim), lower);
    TrimAllMembers(tokens, trim, k);
  }

  /** The shown list is the candidate list de-duplicated. */
  lemma UniqueSourceKeysDedup(historySources: string, weatherSources: string,
                              trim: string -> string, lower: string -> string)
    ensures UniqueSourceKeys(historySources, weatherSources, trim, lower)
         == Dedup(KeptTokens(historySources, weatherSources, trim, lower))
  {
    var combined := CombinedSources(historySources, weatherSources);
    assert Text.Split(combined, ',') == Text.Split(historySources, ',') + Text.Split(weatherSources, ',');
  }

  /** No shown key is empty or the placeholder. */
  lemma UniqueSourceKeysClean(historySources: string, weatherSources: string,
                              trim: string -> string, lower: string -> string)
    ensures var keys := UniqueSourceKeys(historySources, weatherSources, trim, lower);
      forall i :: 0 <= i < |keys| ==> keys[i] != "" && lower(keys[i]) != NoSourceKey
  {
    var keys := UniqueSourceKeys(historySources, weatherSources, trim, lower);
    forall i | 0 <= i < |keys| ensures keys[i] != "" && lower(keys[i]) != NoSourceKey {
      KeyMembers(historySources, weatherSources, trim, lower, keys[i]);
    }
  }

  /** No key is shown twice. */
  lemma UniqueSourceKeysDistinct(historySources: string, weatherSources: string,
                                 trim: string -> string, lower: string -> string)
    ensures NoDuplicates(UniqueSourceKeys(historySources, weatherSources, trim, lower))
  {
    UniqueSourceKeysDedup(historySources, weatherSources, trim, lower);
    DedupNoDuplicates(KeptTokens(historySources, weatherSources, trim, lower));
  }

  /** Keys are shown in the order they first occur among the kept tokens. */
  lemma UniqueSourceKeysOrdered(historySources: string, weatherSources: string,
                                trim: string -> string, lower: string -> string)
    ensures var keys := UniqueSourceKeys(historySources, weatherSources, trim, lower);
      var kept := KeptTokens(historySources, weatherSources, trim, lower);
      && (forall i :: 0 <= i < |keys| ==> keys[i] in kept)
      && (forall i, j :: 0 <= i < j < |keys| ==> Seqs.IndexOf(kept, keys[i]) < Seqs.IndexOf(kept, keys[j]))
  {
    var keys := UniqueSourceKeys(historySources, weatherSources, trim, lower);
    var kept := KeptTokens(historySources, weatherSources, trim, lower);
    UniqueSourceKeysDedup(historySources, weatherSources, trim, lower);
    DedupOrder(kept);
    forall i | 0 <= i < |keys| ensures keys[i] in kept {
      assert keys[i] in Dedup(kept);
    }
  }

  lemma KeepAllSnoc(tokens: seq<string>, t: string, lower: string -> string)
    ensures KeepAll(tokens + [t], lower) == KeepAll(tokens, lower) + (if Keep(t, lower) then [t] else [])
  {
    assert (tokens + [t])[..|tokens|] == tokens;
  }

  lemma ScenarioTokens(a: string, b: string, p: string)
    requires ',' !in a && ',' !in b && ',' !in p
    ensures Text.Split(a + [','] + p, ',') + Text.Split(a + [','] + ([','] + b), ',') == [a, p, a, "", b]
  {
    Text.SplitSepFree(a, ',');
    Text.SplitSepFree(p, ',');
    Text.SplitSepFree(b, ',');
    Text.SplitSepFree("", ',');
    Text.SplitConcat(a, p, ',');
    assert [','] + b == "" + [','] + b;
    Text.SplitConcat("", b, ',');
    Text.SplitConcat(a, [','] + b, ',');
  }

  lemma ScenarioKept(tokens: seq<string>, a: string, b: string, p: string, lower: string -> string)
    requires tokens == [a, p, a, "", b]
    requires a != "" && b != ""
    requires lower(a) != NoSourceKey && lower(b) != NoSourceKey && lower(p) == NoSourceKey
    ensures KeepAll(tokens, lower) == [a, a, b]
  {
    var t1, t2, t3, t4 := [a], [a, p], [a, p, a], [a, p, a, ""];
    assert t1 == [] + [a] && t2 == t1 + [p] && t3 == t2 + [a] && t4 == t3 + [""] && tokens == t4 + [b];
    KeepAllSnoc([], a, lower);
    assert KeepAll(t1, lower) == [a];
    KeepAllSnoc(t1, p, lower);
    assert KeepAll(t2, lower) == [a];
    KeepAllSnoc(t2, a, lower);
    assert KeepAll(t3, lower) == [a, a];
    KeepAllSnoc(t3, "", lower);
    assert KeepAll(t4, lower) == [a, a];
    KeepAllSnoc(t4, b, lower);
  }

  /** Blanks, repeats and the placeholder in any letter case never reach
      the list: sources "a,p" and "a,,b", where `p` lower-cases to the
      placeholder, show exactly `a` then `b`. */
  lemma SourceKeysScenario(a: string, b: string, p: string, trim: string -> string, lower: string -> string)
    requires ',' !in a && ',' !in b && ',' !in p
    requires trim(a) == a && trim(b) == b && trim(p) == p && trim("") == ""
    requires a != "" && b != "" && a != b
    requires lower(a) != NoSourceKey && lower(b) != NoSourceKey && lower(p) == NoSourceKey
    ensures UniqueSourceKeys(a + [','] + p, a + [','] + ([','] + b), trim, lower) == [a, b]
  {
    var h, w := a + [','] + p, a + [','] + ([','] + b);
    ScenarioTokens(a, b, p);
    var tokens := Text.Split(h, ',') + Text.Split(w, ',');
    assert TrimAll(tokens, trim) == tokens;
    ScenarioKept(tokens, a, b, p, lower);
    var kept := KeptTokens(h, w, trim, lower);
    assert kept == [a, a, b];
    assert Dedup(kept[..1]) == [a];
    assert Dedup(kept[..2]) == [a] by { assert kept[..2][..1] == kept[..1]; }
    assert kept[..2] == kept[..|kept| - 1];
    UniqueSourceKeysDedup(h, w, trim, lower);
  }

  // ---------------------------------------------------------------------
  // Factor rows
  // ---------------------------------------------------------------------

  datatype ScoreColor = Red | Green | Grey

  /** A factor's row: the sign shown before its points and their colour. */
  datatype FactorRow = FactorRow(sign: string, color: ScoreColor, score: int)

  /** `FactorRow`: positive points are red with a '+', negative ones green,
      zero grey. */
  function MakeFactorRow(score: int): (r: FactorRow)
    ensures r.score == score
    ensures r.sign == "+" <==> score > 0
    ensures r.sign == "" <==> score <= 0
    ensures r.color == Red <==> score > 0
    ensures r.color == Green <==> score < 0
    ensures r.color == Grey <==> score == 0
  {
    FactorRow(if score > 0 then "+" else "",
              if score > 0 then Red else if score < 0 then Green else Grey,
              score)
  }

  /** The panel's row for one factor of a unit. */
  function RowFor(f: RiskCalculator.Factor, factors: RiskFactors): FactorRow {
    MakeFactorRow(RiskCalculator.GetFactorScore(f, factors))
  }

  /** Among the fixed weights only infrastructure can lower the score:
      geography is always red, weather is grey exactly under normal status,
      history is never green for a non-negative last-year count, and
      infrastructure is green exactly when advanced. */
  lemma FactorRowColors(factors: RiskFactors)
    ensures RowFor(RiskCalculator.GeographyFactor, factors).color == Red
    ensures RowFor(RiskCalculator.WeatherFactor, factors).color != Green
    ensures RowFor(RiskCalculator.WeatherFactor, factors).color == Grey <==> factors.weather.status == Normal
    ensures factors.history.lastYear >= 0 ==> RowFor(RiskCalculator.HistoryFactor, factors).color != Green
    ensures RowFor(RiskCalculator.InfrastructureFactor, factors).color == Green <==> factors.infrastructure == Advanced
    ensures RowFor(RiskCalculator.InfrastructureFactor, factors).color == Grey <==> factors.infrastructure == Standard
  {
  }
}
