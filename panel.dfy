/** The minting selection panel: which token types are selected, whether the
    operator has confirmed, and whether a mint is in flight, with the pure
    helpers the panel renders from. */
module MintingPanel {
  import opened Allocations
  import opened Seqs

  /** What the panel is given for each token type. */
  datatype PanelSummary = PanelSummary(
    tokenType: string,
    totalAmount: int,
    confirmedAmount: int,
    status: string,
    readyToMint: bool)

  predicate IsReady(s: PanelSummary) {
    s.readyToMint
  }

  /** `mintableTokenTypes`: the summaries that are ready to mint, each copy kept,
      in input order (see `MintableDistributes`). */
  function MintableTokenTypes(summaries: seq<PanelSummary>): (r: seq<PanelSummary>)
    ensures forall s :: s in r <==> s in summaries && s.readyToMint
    ensures forall s :: multiset(r)[s] == if s.readyToMint then multiset(summaries)[s] else 0
  {
    var r := Filter(summaries, IsReady);
    assert forall s :: multiset(r)[s] == if s.readyToMint then multiset(summaries)[s] else 0 by {
      forall s ensures multiset(r)[s] == if s.readyToMint then multiset(summaries)[s] else 0 {
        FilterMultiplicity(summaries, IsReady, s);
      }
    }
    r
  }

  /** The mintable list of a concatenation is the concatenation of the mintable
      lists: the panel keeps the input order. */
  lemma MintableDistributes(a: seq<PanelSummary>, b: seq<PanelSummary>)
    ensures MintableTokenTypes(a + b) == MintableTokenTypes(a) + MintableTokenTypes(b)
  {
    FilterAppend(a, b, IsReady);
  }

  /** The token types of some summaries, in order. */
  function TypesOf(summaries: seq<PanelSummary>): (types: seq<string>)
    ensures |types| == |summaries|
    ensures forall i :: 0 <= i < |summaries| ==> types[i] == summaries[i].tokenType
  {
    if summaries == [] then [] else [summaries[0].tokenType] + TypesOf(summaries[1..])
  }

  /** What select-all selects: the token types of the mintable summaries. */
  function SelectAllTypes(summaries: seq<PanelSummary>): (types: seq<string>)
    ensures |types| == |MintableTokenTypes(summaries)|
    ensures forall t :: t in types <==> exists s :: s in summaries && s.readyToMint && s.tokenType == t
  {
    var m := MintableTokenTypes(summaries);
    var types := TypesOf(m);
    assert forall t :: t in types ==> exists s :: s in m && s.tokenType == t by {
      forall t | t in types ensures exists s :: s in m && s.tokenType == t {
        var i :| 0 <= i < |types| && types[i] == t;
        assert m[i] in m;
      }
    }
    assert forall s :: s in m ==> s.tokenType in types by {
      forall s | s in m ensures s.tokenType in types {
        var i :| 0 <= i < |m| && m[i] == s;
        assert types[i] == s.tokenType;
      }
    }
    types
  }

  /** Deselection: every occurrence of `t` removed, the rest kept in order. */
  function RemoveAll(s: seq<string>, t: string): (r: seq<string>)
    ensures t !in r
    ensures forall x :: x != t ==> multiset(r)[x] == multiset(s)[x]
  {
    if s == [] then []
    else
      assert s == [s[0]] + s[1..];
      (if s[0] == t then [] else [s[0]]) + RemoveAll(s[1..], t)
  }

  /** Removal keeps the relative order of what remains. */
  lemma {:induction false} RemoveAllDistributes(a: seq<string>, b: seq<string>, t: string)
    ensures RemoveAll(a + b, t) == RemoveAll(a, t) + RemoveAll(b, t)
  {
    if a == [] {
      assert a + b == b;
    } else {
      var head := if a[0] == t then [] else [a[0]];
      assert (a + b)[0] == a[0] && (a + b)[1..] == a[1..] + b;
      assert RemoveAll(a + b, t) == head + RemoveAll(a[1..] + b, t);
      RemoveAllDistributes(a[1..], b, t);
      assert RemoveAll(a, t) == head + RemoveAll(a[1..], t);
    }
  }

  /** Removing a type that is not selected changes nothing. */
  lemma {:induction false} RemoveAllAbsent(s: seq<string>, t: string)
    requires t !in s
    ensures RemoveAll(s, t) == s
  {
    if s != [] {
      RemoveAllAbsent(s[1..], t);
    }
  }

  /** `Math.round`: the integer nearest to n / d, halves rounded up. */
  function RoundHalfUp(n: int, d: int): (q: int)
    requires d != 0
    ensures d > 0 ==> (2 * q - 1) * d <= 2 * n < (2 * q + 1) * d
    ensures d < 0 ==> (2 * q + 1) * d < 2 * n <= (2 * q - 1) * d
  {
    if d > 0 then (2 * n + d) / (2 * d) else (-(2 * n + d)) / (-2 * d)
  }

  /** `calculateProgress`: the confirmed share of the total as a whole
      percentage, 0 for a zero total and never above 100. */
  function CalculateProgress(confirmed: int, total: int): (p: int)
    ensures total == 0 ==> p == 0
    ensures p <= 100
    ensures 0 <= confirmed && 0 < total ==> 0 <= p
    ensures 0 < total ==> (p == 100 <==> 200 * confirmed >= 199 * total)
    ensures 0 < total && p < 100 ==> (2 * p - 1) * total <= 200 * confirmed < (2 * p + 1) * total
  {
    if total == 0 then 0
    else
      var rounded := RoundHalfUp(100 * confirmed, total);
      RoundedPercentBounds(confirmed, total, rounded);
      if rounded < 100 then rounded else 100
  }

  lemma RoundedPercentBounds(confirmed: int, total: int, q: int)
    requires total > 0 ==> (2 * q - 1) * total <= 200 * confirmed < (2 * q + 1) * total
    ensures total > 0 ==> (q >= 100 <==> 200 * confirmed >= 199 * total)
    ensures total > 0 && confirmed >= 0 ==> q >= 0
  {
    if total <= 0 {
    } else if q >= 100 {
      MulMonotone(199, 2 * q - 1, total);
    } else {
      MulMonotone(2 * q + 1, 199, total);
    }
    if total > 0 && q < 0 {
      MulMonotone(2 * q + 1, -1, total);
    }
  }

  lemma MulMonotone(a: int, b: int, t: int)
    requires a <= b && t > 0
    ensures a * t <= b * t
  {
    assert b * t - a * t == (b - a) * t;
  }

  /** The select-all box is checked when as many types are selected as are
      mintable, and there is at least one. */
  predicate SelectAllChecked(selected: seq<string>, summaries: seq<PanelSummary>) {
    |selected| == |MintableTokenTypes(summaries)| && |MintableTokenTypes(summaries)| > 0
  }

  /** The guard of the mint handler: confirmed, and something selected. */
  predicate MintGuardPasses(confirmationChecked: bool, selected: seq<string>) {
    confirmationChecked && |selected| > 0
  }

  /** The panel's mint button is disabled when unconfirmed, nothing is
      selected, a mint is in flight or data is loading. */
  predicate MintButtonDisabled(confirmationChecked: bool, selected: seq<string>, isMinting: bool, isLoading: bool) {
    !confirmationChecked || |selected| == 0 || isMinting || isLoading
  }

  /** The button is enabled exactly when the handler's guard passes and neither
      a mint nor a load is under way; so an enabled button always gets past the
      guard, while the guard alone ignores both flags. */
  lemma EnabledButtonPassesGuard(confirmationChecked: bool, selected: seq<string>, isMinting: bool, isLoading: bool)
    ensures !MintButtonDisabled(confirmationChecked, selected, isMinting, isLoading) <==>
      MintGuardPasses(confirmationChecked, selected) && !isMinting && !isLoading
  {
  }

  lemma {:induction false} NoDuplicatesCardinality(s: seq<string>)
    requires NoDuplicates(s)
    ensures |set x | x in s| == |s|
  {
    if s != [] {
      NoDuplicatesCardinality(s[1..]);
      assert (set x | x in s) == {s[0]} + (set x | x in s[1..]);
      assert s[0] !in s[1..] by {
        forall j | 0 <= j < |s[1..]| ensures s[1..][j] != s[0] {
          assert s[1..][j] == s[j + 1];
        }
      }
    }
  }

  lemma {:induction false} SubsetCardinality(a: set<string>, b: set<string>)
    requires a <= b
    ensures |a| <= |b|
    decreases |a|
  {
    if a != {} {
      var x :| x in a;
      SubsetCardinality(a - {x}, b - {x});
    }
  }

  lemma StrictSubsetCardinality(a: set<string>, b: set<string>)
    requires a <= b && a != b
    ensures |a| < |b|
  {
    var x :| x in b && x !in a;
    SubsetCardinality(a, b - {x});
  }

  /** A repeat-free list drawn from a repeat-free list has the same length
      exactly when it holds every element of it. */
  lemma SameLengthIffAllChosen(chosen: seq<string>, all: seq<string>)
    requires NoDuplicates(chosen) && NoDuplicates(all)
    requires forall t :: t in chosen ==> t in all
    ensures |chosen| == |all| <==> forall t :: t in all ==> t in chosen
  {
    var c, a := set x | x in chosen, set x | x in all;
    NoDuplicatesCardinality(chosen);
    NoDuplicatesCardinality(all);
    assert c <= a;
    if c != a {
      StrictSubsetCardinality(c, a);
    }
    assert |chosen| == |all| ==> c == a;
    if forall t :: t in all ==> t in chosen {
      assert a <= c;
      assert c == a;
    } else {
      var t :| t in all && t !in chosen;
      assert t in a && t !in c;
    }
  }

  /** When the selection has no repeats, holds only mintable types, and the
      mintable types are distinct, the count-based select-all box is checked
      exactly when every mintable type is selected. */
  lemma SelectAllCheckedMeansAllSelected(selected: seq<string>, summaries: seq<PanelSummary>)
    requires NoDuplicates(selected) && NoDuplicates(SelectAllTypes(summaries))
    requires forall t :: t in selected ==> t in SelectAllTypes(summaries)
    ensures SelectAllChecked(selected, summaries) <==>
      |SelectAllTypes(summaries)| > 0 && forall t :: t in SelectAllTypes(summaries) ==> t in selected
  {
    SameLengthIffAllChosen(selected, SelectAllTypes(summaries));
  }

  /** A selection the panel's checkboxes can produce: no type twice, and only
      types of summaries that are ready to mint (only those have a box). */
  ghost predicate ValidSelection(selected: seq<string>, summaries: seq<PanelSummary>) {
    NoDuplicates(selected) && forall t :: t in selected ==> t in SelectAllTypes(summaries)
  }

  lemma {:induction false} RemoveAllKeepsNoDuplicates(s: seq<string>, t: string)
    requires NoDuplicates(s)
    ensures NoDuplicates(RemoveAll(s, t))
  {
    if s != [] {
      assert NoDuplicates(s[1..]) by {
        forall i, j | 0 <= i < j < |s[1..]| ensures s[1..][i] != s[1..][j] {
          assert s[1..][i] == s[i + 1] && s[1..][j] == s[j + 1];
        }
      }
      RemoveAllKeepsNoDuplicates(s[1..], t);
      var rest := RemoveAll(s[1..], t);
      if s[0] != t {
        assert s[0] !in s[1..] by {
          forall j | 0 <= j < |s[1..]| ensures s[1..][j] != s[0] {
            assert s[1..][j] == s[j + 1];
          }
        }
        assert multiset(rest)[s[0]] == multiset(s[1..])[s[0]] == 0;
        assert RemoveAll(s, t) == [s[0]] + rest;
        forall i, j | 0 <= i < j < |[s[0]] + rest| ensures ([s[0]] + rest)[i] != ([s[0]] + rest)[j] {
          if i == 0 {
            assert ([s[0]] + rest)[j] == rest[j - 1];
            assert rest[j - 1] in rest;
          } else {
            assert ([s[0]] + rest)[i] == rest[i - 1] && ([s[0]] + rest)[j] == rest[j - 1];
          }
        }
      } else {
        assert RemoveAll(s, t) == rest;
      }
    }
  }

  /** Ticking an unticked box of a ready type, or unticking any box, keeps the
      selection one the checkboxes can produce; so does select-all when the
      ready types are distinct. */
  lemma SelectionStaysValid(selected: seq<string>, summaries: seq<PanelSummary>, t: string, isSelected: bool)
    requires ValidSelection(selected, summaries)
    requires isSelected ==> t !in selected && t in SelectAllTypes(summaries)
    ensures ValidSelection(if isSelected then selected + [t] else RemoveAll(selected, t), summaries)
    ensures NoDuplicates(SelectAllTypes(summaries)) ==> ValidSelection(SelectAllTypes(summaries), summaries)
  {
    if isSelected {
      var s := selected + [t];
      forall i, j | 0 <= i < j < |s| ensures s[i] != s[j] {
        if j == |selected| {
          assert s[i] == selected[i] && selected[i] in selected;
        } else {
          assert s[i] == selected[i] && s[j] == selected[j];
        }
      }
    } else {
      RemoveAllKeepsNoDuplicates(selected, t);
      var r := RemoveAll(selected, t);
      forall x | x in r ensures x in SelectAllTypes(summaries) {
        assert multiset(r)[x] == multiset(selected)[x];
      }
    }
  }

  /** The selection lemmas above hold while the props stay the same. When new
      props arrive the selection is kept, so it can go stale: a type selected
      while it was ready stays selected once it is not, and the count-based
      select-all box then shows checked although the type now ready is not
      selected (and the mint requests the stale type). */
  lemma StaleSelectionLooksComplete(a: PanelSummary, b: PanelSummary)
    requires a.tokenType != b.tokenType && !a.readyToMint && b.readyToMint
    ensures ValidSelection([a.tokenType], [a.(readyToMint := true), b.(readyToMint := false)])
    ensures !ValidSelection([a.tokenType], [a, b])
    ensures SelectAllChecked([a.tokenType], [a, b])
    ensures b.tokenType in SelectAllTypes([a, b]) && b.tokenType !in [a.tokenType]
  {
    var before := [a.(readyToMint := true), b.(readyToMint := false)];
    assert before[0] in before;
    assert b in [a, b];
    assert a.tokenType !in SelectAllTypes([a, b]) by {
      forall s | s in [a, b] && s.readyToMint
        ensures s.tokenType != a.tokenType
      {
        assert s == b;
      }
    }
    MintableOfPair(a, b);
  }

  /** The mintable list of two summaries. */
  lemma MintableOfPair(x: PanelSummary, y: PanelSummary)
    ensures MintableTokenTypes([x, y]) == (if x.readyToMint then [x] else []) + (if y.readyToMint then [y] else [])
  {
    var s := [x, y];
    assert s[1..] == [y] && [y][1..] == [];
    assert Filter([y], IsReady) == (if IsReady(y) then [y] else []) + Filter([], IsReady);
    assert Filter(s, IsReady) == (if IsReady(x) then [x] else []) + Filter([y], IsReady);
  }

  class TokenMintingPanel {
    /** The props the parent passes; they change when the parent re-renders. */
    var tokenSummaries: seq<PanelSummary>
    var isLoading: bool
    var selectedTokenTypes: seq<string>
    var isMinting: bool
    var confirmationChecked: bool

    constructor (tokenSummaries: seq<PanelSummary>, isLoading: bool)
      ensures this.tokenSummaries == tokenSummaries && this.isLoading == isLoading
      ensures selectedTokenTypes == [] && !isMinting && !confirmationChecked
    {
      this.tokenSummaries := tokenSummaries;
      this.isLoading := isLoading;
      selectedTokenTypes := [];
      isMinting := false;
      confirmationChecked := false;
    }

    /** New props from the parent. The panel's own state (selection,
        confirmation, in-flight flag) is kept as it is, whether or not it still
        matches the new summaries. */
    method ReceiveProps(tokenSummaries: seq<PanelSummary>, isLoading: bool)
      modifies this`tokenSummaries, this`isLoading
      ensures this.tokenSummaries == tokenSummaries && this.isLoading == isLoading
      ensures selectedTokenTypes == old(selectedTokenTypes) && confirmationChecked == old(confirmationChecked)
      ensures isMinting == old(isMinting)
    {
      this.tokenSummaries := tokenSummaries;
      this.isLoading := isLoading;
    }

    /** Ticking a type appends it; unticking removes every occurrence of it. */
    method HandleTokenTypeSelection(tokenType: string, isSelected: bool)
      modifies this`selectedTokenTypes
      ensures isSelected ==> selectedTokenTypes == old(selectedTokenTypes) + [tokenType]
      ensures !isSelected ==> selectedTokenTypes == RemoveAll(old(selectedTokenTypes), tokenType)
      ensures !isSelected ==> tokenType !in selectedTokenTypes
    {
      if isSelected {
        selectedTokenTypes := selectedTokenTypes + [tokenType];
      } else {
        selectedTokenTypes := RemoveAll(selectedTokenTypes, tokenType);
      }
    }

    /** Select-all selects exactly the mintable types, in input order, and
        then shows as checked whenever there is one; unselect-all empties the
        selection. */
    method HandleSelectAll(isSelected: bool)
      modifies this`selectedTokenTypes
      ensures selectedTokenTypes == if isSelected then SelectAllTypes(tokenSummaries) else []
      ensures isSelected ==> (SelectAllIsChecked() <==> |MintableTokenTypes(tokenSummaries)| > 0)
      ensures !isSelected ==> !SelectAllIsChecked()
    {
      if isSelected {
        selectedTokenTypes := SelectAllTypes(tokenSummaries);
      } else {
        selectedTokenTypes := [];
      }
    }

    method SetConfirmationChecked(checked: bool)
      modifies this`confirmationChecked
      ensures confirmationChecked == checked
    {
      confirmationChecked := checked;
    }

    /** The first half of the mint handler, up to the awaited callback: without
        confirmation or selection nothing happens; otherwise the mint is in
        flight and the callback is asked for the current selection. */
    method BeginMint() returns (requested: Option<seq<string>>)
      modifies this`isMinting
      ensures MintGuardPasses(confirmationChecked, selectedTokenTypes) ==>
        requested == Some(selectedTokenTypes) && isMinting
      ensures !MintGuardPasses(confirmationChecked, selectedTokenTypes) ==>
        requested == None && isMinting == old(isMinting)
      ensures !old(MintButtonIsDisabled()) ==> requested.Some? && MintButtonIsDisabled()
    {
      if !confirmationChecked || |selectedTokenTypes| == 0 {
        return None;
      }
      isMinting := true;
      requested := Some(selectedTokenTypes);
    }

    /** The second half, once the callback has returned or thrown: a success
        clears selection and confirmation, a failure keeps both, and the mint
        is no longer in flight either way. */
    method FinishMint(succeeded: bool)
      modifies this`selectedTokenTypes, this`confirmationChecked, this`isMinting
      ensures !isMinting
      ensures succeeded ==> selectedTokenTypes == [] && !confirmationChecked
      ensures !succeeded ==>
        selectedTokenTypes == old(selectedTokenTypes) && confirmationChecked == old(confirmationChecked)
    {
      if succeeded {
        selectedTokenTypes := [];
        confirmationChecked := false;
      }
      isMinting := false;
    }

    /** The whole mint handler, with the callback's success as a parameter. */
    method HandleMintTokens(callbackSucceeds: bool) returns (requested: Option<seq<string>>)
      modifies this`selectedTokenTypes, this`confirmationChecked, this`isMinting
      ensures !old(MintGuardPasses(confirmationChecked, selectedTokenTypes)) ==>
        && requested == None
        && selectedTokenTypes == old(selectedTokenTypes) && confirmationChecked == old(confirmationChecked)
        && isMinting == old(isMinting)
      ensures old(MintGuardPasses(confirmationChecked, selectedTokenTypes)) ==>
        && requested == Some(old(selectedTokenTypes)) && !isMinting
        && (callbackSucceeds ==> selectedTokenTypes == [] && !confirmationChecked)
        && (!callbackSucceeds ==>
              selectedTokenTypes == old(selectedTokenTypes) && confirmationChecked == old(confirmationChecked))
    {
      requested := BeginMint();
      if requested.Some? {
        FinishMint(callbackSucceeds);
      }
    }

    function SelectAllIsChecked(): bool
      reads this`selectedTokenTypes, this`tokenSummaries
    {
      SelectAllChecked(selectedTokenTypes, tokenSummaries)
    }

    function MintButtonIsDisabled(): bool
      reads this`selectedTokenTypes, this`confirmationChecked, this`isMinting, this`isLoading
    {
      MintButtonDisabled(confirmationChecked, selectedTokenTypes, isMinting, isLoading)
    }
  }
}
