/** The argument matcher: which stored pattern a live call matches. */
module Matcher {

  import opened Wrappers
  import opened Values
  import opened Ledgers

  /** One pattern entry against one live argument: a function entry is a
      predicate on the argument, any other entry must be loosely equal. */
  predicate EntryAccepts(host: Host, entry: Value, arg: Value) {
    if entry.Fn? then Accepts(host, entry.f, arg) else LooseEq(arg, entry)
  }

  /** The matcher's inner loop from position `j` of pattern `p`: the marker
      accepts the rest, running out of live arguments fails, any other
      entry must accept its argument. */
  predicate MatchFrom(host: Host, p: seq<Value>, args: seq<Value>, j: nat)
    requires j <= |p|
    decreases |p| - j
  {
    if j == |p| then true
    else if IsMarker(p[j]) then true
    else if |args| <= j then false
    else EntryAccepts(host, p[j], args[j]) && MatchFrom(host, p, args, j + 1)
  }

  /** An empty pattern never matches; any other starts as a match and is
      checked position by position. */
  predicate Matches(host: Host, p: seq<Value>, args: seq<Value>) {
    |p| > 0 && MatchFrom(host, p, args, 0)
  }

  /** No marker among the entries `k..j` of `p`. */
  predicate Unmarked(p: seq<Value>, k: nat, j: nat)
    requires j < |p|
  {
    forall i | k <= i <= j :: !IsMarker(p[i])
  }

  /** A declarative reading of the loop: every entry from `k` that is not
      preceded (from `k` on) by a marker has a live argument that it
      accepts. */
  predicate CoversFrom(host: Host, p: seq<Value>, args: seq<Value>, k: nat) {
    forall j | k <= j < |p| && Unmarked(p, k, j) :: j < |args| && EntryAccepts(host, p[j], args[j])
  }

  lemma {:induction false} MatchFromIffCovers(host: Host, p: seq<Value>, args: seq<Value>, k: nat)
    requires k <= |p|
    ensures MatchFrom(host, p, args, k) <==> CoversFrom(host, p, args, k)
    decreases |p| - k
  {
    if k < |p| {
      if IsMarker(p[k]) {
        forall j | k <= j < |p|
          ensures !Unmarked(p, k, j)
        {
          assert IsMarker(p[k]);
        }
      } else {
        MatchFromIffCovers(host, p, args, k + 1);
        forall j | k + 1 <= j < |p|
          ensures Unmarked(p, k, j) <==> Unmarked(p, k + 1, j)
        {
        }
        assert Unmarked(p, k, k);
        if CoversFrom(host, p, args, k) {
          assert k < |args| && EntryAccepts(host, p[k], args[k]);
          forall j | k + 1 <= j < |p| && Unmarked(p, k + 1, j)
            ensures j < |args| && EntryAccepts(host, p[j], args[j])
          {
            assert Unmarked(p, k, j);
          }
        }
        if MatchFrom(host, p, args, k) {
          forall j | k <= j < |p| && Unmarked(p, k, j)
            ensures j < |args| && EntryAccepts(host, p[j], args[j])
          {
            if j > k {
              assert Unmarked(p, k + 1, j);
            }
          }
        }
      }
    }
  }

  /** The matcher's rule for one pattern, stated without the loop. */
  lemma MatchesIffCovers(host: Host, p: seq<Value>, args: seq<Value>)
    ensures Matches(host, p, args) <==> |p| > 0 && CoversFrom(host, p, args, 0)
  {
    MatchFromIffCovers(host, p, args, 0);
  }

  /** Live arguments beyond those a pattern inspects do not affect it. */
  lemma {:induction false} ExtraArgumentsIgnored(host: Host, p: seq<Value>, args: seq<Value>, more: seq<Value>, j: nat)
    requires j <= |p|
    requires MatchFrom(host, p, args, j)
    ensures MatchFrom(host, p, args + more, j)
    decreases |p| - j
  {
    if j < |p| && !IsMarker(p[j]) {
      assert (args + more)[j] == args[j];
      ExtraArgumentsIgnored(host, p, args, more, j + 1);
    }
  }

  /** The outer loop: the lowest-index pattern from `from` on that matches. */
  function FirstMatch(host: Host, pats: seq<seq<Value>>, args: seq<Value>, from: nat): (r: Option<nat>)
    requires from <= |pats|
    ensures r.Some? ==> from <= r.value < |pats| && Matches(host, pats[r.value], args)
    ensures r.Some? ==> forall i | from <= i < r.value :: !Matches(host, pats[i], args)
    ensures r.None? ==> forall i | from <= i < |pats| :: !Matches(host, pats[i], args)
    decreases |pats| - from
  {
    if from == |pats| then None
    else if Matches(host, pats[from], args) then Some(from)
    else FirstMatch(host, pats, args, from + 1)
  }

  /** The source's `checkCallArgs`: a zero-argument call is answered by the
      cached index alone; any other call by the first matching pattern. */
  function CheckCallArgs(host: Host, l: Ledger, args: seq<Value>): (r: Option<nat>)
    requires LedgerOk(l)
    ensures r.Some? ==> r.value < |l.args|
    ensures |args| == 0 ==> r == l.noArgsIndex
    ensures |args| > 0 && r.Some? ==>
              && Matches(host, l.args[r.value], args)
              && forall i | 0 <= i < r.value :: !Matches(host, l.args[i], args)
    ensures |args| > 0 && r.None? ==> forall i | 0 <= i < |l.args| :: !Matches(host, l.args[i], args)
  {
    if |args| == 0 then l.noArgsIndex
    else FirstMatch(host, l.args, args, 0)
  }

  /** Declaration order is priority order: of two matching patterns, the
      later one is never chosen. */
  lemma EarlierPatternWins(host: Host, l: Ledger, args: seq<Value>, i: nat, j: nat)
    requires LedgerOk(l) && |args| > 0
    requires i < j < |l.args|
    requires Matches(host, l.args[i], args) && Matches(host, l.args[j], args)
    ensures CheckCallArgs(host, l, args) != Some(j)
    ensures CheckCallArgs(host, l, args).Some?
  {
  }

  /** No function entry before the first marker: such a pattern matches the
      very arguments it was made from. */
  predicate PlainUpToMarker(p: seq<Value>) {
    forall j | 0 <= j < |p| && Unmarked(p, 0, j) :: !p[j].Fn?
  }

  lemma SelfMatch(host: Host, p: seq<Value>)
    requires PlainUpToMarker(p)
    ensures CoversFrom(host, p, p, 0)
  {
  }

  /** After a call registered a new pattern, repeating the same call matches
      that pattern, provided its entries before any marker are not
      predicates (a predicate need not accept itself). */
  lemma RepeatHitsRegistered(host: Host, l: Ledger, args: seq<Value>, first: int)
    requires LedgerOk(l)
    requires CheckCallArgs(host, l, args).None?
    requires PlainUpToMarker(args)
    ensures CheckCallArgs(host, Register(l, args, first), args) == Some(|l.args|)
  {
    var l' := Register(l, args, first);
    if |args| > 0 {
      SelfMatch(host, args);
      MatchesIffCovers(host, args, args);
      assert Matches(host, l'.args[|l.args|], args);
      assert forall i | 0 <= i < |l.args| :: l'.args[i] == l.args[i];
      assert forall i | 0 <= i < |l.args| :: !Matches(host, l'.args[i], args);
    }
  }
}
