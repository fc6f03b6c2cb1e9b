/**
 * Symbols of the game are `-`-separated: a waypoint `X1-DF55-20250Z` lies in
 * the system `X1-DF55`. Two derivations of the system symbol exist in the
 * source; they are modelled here and compared.
 */
module Symbols {
  import opened Strings

  /** The `-`-separated segments of a symbol. */
  function Segments(symbol: string): (parts: seq<string>)
    ensures |parts| >= 1
  {
    Split(symbol, '-')
  }

  /**
   * `infer_system_symbol`: the symbol with its final `-` segment dropped
   * (empty when there is no hyphen).
   */
  function InferSystemSymbol(waypoint: string): (r: string)
    ensures '-' !in waypoint ==> r == ""
    ensures '-' in waypoint ==>
      waypoint == r + "-" + Segments(waypoint)[|Segments(waypoint)| - 1]
    ensures '-' in waypoint ==>
      Segments(r) == Segments(waypoint)[..|Segments(waypoint)| - 1]
  {
    var parts := Segments(waypoint);
    DropLastSegment(waypoint, parts);
    Join(parts[..|parts| - 1], "-")
  }

  lemma DropLastSegment(waypoint: string, parts: seq<string>)
    requires parts == Segments(waypoint)
    ensures |parts| == 1 ==> Join(parts[..|parts| - 1], "-") == ""
    ensures |parts| >= 2 ==>
      waypoint == Join(parts[..|parts| - 1], "-") + "-" + parts[|parts| - 1]
    ensures |parts| >= 2 ==>
      Segments(Join(parts[..|parts| - 1], "-")) == parts[..|parts| - 1]
  {
    var kept := parts[..|parts| - 1];
    if |parts| >= 2 {
      assert kept + [parts[|parts| - 1]] == parts;
      JoinSnoc(kept, parts[|parts| - 1], "-");
      JoinSplit(waypoint, '-');
      assert ['-'] == "-";
      SplitJoin(kept, '-', "");
      PaddedWithNothing(kept[1..]);
      assert ['-'] + "" == "-";
      assert [kept[0]] + kept[1..] == kept;
    }
  }

  /**
   * The derivation in the client's `get_waypoint`: the first two `-`
   * segments of the waypoint symbol, joined again.
   */
  function SystemSymbolOf(waypoint: string): (r: string)
    ensures var n := |Segments(waypoint)|;
      Segments(r) == Segments(waypoint)[..if n < 2 then n else 2]
    ensures r <= waypoint
    ensures |Segments(waypoint)| > 2 ==> waypoint[|r|] == '-'
  {
    var parts := Segments(waypoint);
    KeepTwoSegments(waypoint, parts);
    Join(parts[..if |parts| < 2 then |parts| else 2], "-")
  }

  lemma KeepTwoSegments(waypoint: string, parts: seq<string>)
    requires parts == Segments(waypoint)
    ensures var kept := parts[..if |parts| < 2 then |parts| else 2];
      && Segments(Join(kept, "-")) == kept
      && Join(kept, "-") <= waypoint
      && (|parts| > 2 ==> waypoint[|Join(kept, "-")|] == '-')
  {
    var kept := parts[..if |parts| < 2 then |parts| else 2];
    SplitJoin(kept, '-', "");
    PaddedWithNothing(kept[1..]);
    assert ['-'] + "" == "-";
    assert [kept[0]] + kept[1..] == kept;
    JoinSplit(waypoint, '-');
    assert ['-'] == "-";
    if |parts| > 2 {
      ShorterPrefixOfJoin(parts, 2);
    } else {
      assert kept == parts;
    }
  }

  /** The join of the first `k` segments, then a hyphen, starts the join of all. */
  lemma {:induction false} ShorterPrefixOfJoin(parts: seq<string>, k: nat)
    requires 1 <= k < |parts|
    ensures Join(parts[..k], "-") + "-" <= Join(parts, "-")
    decreases |parts|
  {
    var init := parts[..|parts| - 1];
    assert init + [parts[|parts| - 1]] == parts;
    JoinSnoc(init, parts[|parts| - 1], "-");
    if k < |parts| - 1 {
      assert init[..k] == parts[..k];
      ShorterPrefixOfJoin(init, k);
    } else {
      assert init == parts[..k];
    }
  }

  /**
   * The two derivations agree exactly on three-segment symbols (and on the
   * empty symbol); on every other symbol they differ.
   */
  lemma DerivationsAgree(waypoint: string)
    ensures InferSystemSymbol(waypoint) == SystemSymbolOf(waypoint)
      <==> |Segments(waypoint)| == 3 || waypoint == ""
  {
    var parts := Segments(waypoint);
    var n := |parts|;
    var inferred := InferSystemSymbol(waypoint);
    var derived := SystemSymbolOf(waypoint);
    assert inferred == Join(parts[..n - 1], "-");
    assert derived == Join(parts[..if n < 2 then n else 2], "-");
    if n == 1 {
      assert parts == [waypoint];
      assert parts[..1] == parts;
    } else if n == 2 {
      assert parts[..2] == parts;
      JoinPrefixGrows(parts, 1, 2, "-");
      assert waypoint != "" by { assert '-' in waypoint; }
    } else if n > 3 {
      JoinPrefixGrows(parts, 2, n - 1, "-");
      assert waypoint != "" by { assert '-' in waypoint; }
    }
  }
}
