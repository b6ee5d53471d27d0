/**
 The holder list: holders followed by friends, the first row of each key wins, and the loop stops as
 soon as the cap is reached.
 */
module Holders {
  import opened Core
  import opened Identity
  import opened Text

  const MAX_HOLDER_ROWS: nat := 200

  datatype User = User(handle: Option<string>, wallet: Option<string>)

  datatype Row = Row(wallet: Option<string>, handle: Option<string>, user: Option<User>, content: string)

  datatype Page = Page(networkId: Option<int>, address: Option<string>, holders: seq<Row>, friends: seq<Row>)

  type Key = Option<string>

  function OrElse(a: Key, b: Key): (r: Key) {
    if a.Some? then a else b
  }

  /** The row's wallet, else its user's wallet, else its handle, else its user's handle. The first one
      present decides: a blank one gives no key at all. */
  function RawKey(row: Row): (r: Key) {
    var userWallet := if row.user.Some? then row.user.value.wallet else None;
    var userHandle := if row.user.Some? then row.user.value.handle else None;
    OrElse(row.wallet, OrElse(userWallet, OrElse(row.handle, userHandle)))
  }

  function DedupeKey(row: Row, fold: bool): (key: Key) {
    var raw := RawKey(row);
    if raw.None? || Trim(raw.value) == "" then None
    else Some(if fold then AsciiLower(Trim(raw.value)) else Trim(raw.value))
  }

  predicate IdentityMatches(chain: string, network: int, address: string, page: Page) {
    && page.networkId == Some(network)
    && page.address.Some?
    && if CaseInsensitive(chain) then EqIgnoreAsciiCase(page.address.value, address) else page.address.value == address
  }

  function Cap(limit: nat): (cap: nat)
    ensures 1 <= limit <= 200 ==> cap == limit
    ensures limit == 0 ==> cap == 1
    ensures limit > 200 ==> cap == 200
  {
    if limit < 1 then 1 else if limit > MAX_HOLDER_ROWS then MAX_HOLDER_ROWS else limit
  }

  // ---- First occurrences, over keys alone ---------------------------------------------------

  /** Position `i` carries a key that some earlier position carries too. */
  ghost predicate Repeats(keys: seq<Key>, i: nat)
    requires i < |keys|
  {
    keys[i].Some? && exists j :: 0 <= j < i && keys[j] == keys[i]
  }

  /** The positions below `n` that repeat nothing before them, in order. */
  ghost function Firsts(keys: seq<Key>, n: nat): (idx: seq<nat>)
    requires n <= |keys|
    ensures forall k :: 0 <= k < |idx| ==> idx[k] < n
  {
    if n == 0 then []
    else Firsts(keys, n - 1) + (if Repeats(keys, n - 1) then [] else [n - 1])
  }

  ghost function AtMost<T>(s: seq<T>, cap: nat): seq<T> {
    if |s| > cap then s[..cap] else s
  }

  ghost function Kept(keys: seq<Key>, cap: nat): (idx: seq<nat>)
    ensures forall k :: 0 <= k < |idx| ==> idx[k] < |keys|
  {
    AtMost(Firsts(keys, |keys|), cap)
  }

  /** Strictly increasing. */
  lemma {:induction false} FirstsIncrease(keys: seq<Key>, n: nat, k: nat, l: nat)
    requires n <= |keys| && k < l < |Firsts(keys, n)|
    ensures Firsts(keys, n)[k] < Firsts(keys, n)[l]
  {
    if l < |Firsts(keys, n - 1)| {
      FirstsIncrease(keys, n - 1, k, l);
    }
  }

  lemma {:induction false} FirstsIff(keys: seq<Key>, n: nat, i: nat)
    requires n <= |keys|
    ensures i in Firsts(keys, n) <==> i < n && !Repeats(keys, i)
  {
    if n > 0 {
      FirstsIff(keys, n - 1, i);
    }
  }

  lemma {:induction false} FirstsGrow(keys: seq<Key>, m: nat, n: nat)
    requires m <= n <= |keys|
    ensures Firsts(keys, m) <= Firsts(keys, n)
  {
    if m < n {
      FirstsGrow(keys, m, n - 1);
    }
  }

  /** Every keyed position has a first occurrence at or before it. */
  lemma {:induction false} FirstOccurrence(keys: seq<Key>, i: nat) returns (j: nat)
    requires i < |keys| && keys[i].Some?
    ensures j <= i && keys[j] == keys[i] && !Repeats(keys, j)
  {
    if Repeats(keys, i) {
      var k :| 0 <= k < i && keys[k] == keys[i];
      j := FirstOccurrence(keys, k);
    } else {
      j := i;
    }
  }

  // ---- The loop -----------------------------------------------------------------------------

  ghost function Keys(rows: seq<Row>, fold: bool): (keys: seq<Key>) {
    seq(|rows|, i requires 0 <= i < |rows| => DedupeKey(rows[i], fold))
  }

  ghost predicate AreKeys(keys: seq<Key>, rows: seq<Row>, fold: bool) {
    && |keys| == |rows|
    && forall i {:trigger DedupeKey(rows[i], fold)} :: 0 <= i < |rows| ==> keys[i] == DedupeKey(rows[i], fold)
  }

  /** `seen` holds exactly the keys carried below `n`. */
  ghost predicate SeenIs(seen: seq<string>, keys: seq<Key>, n: nat)
    requires n <= |keys|
  {
    forall key: string :: key in seen <==> Some(key) in keys[..n]
  }

  lemma SeenDecides(seen: seq<string>, keys: seq<Key>, n: nat)
    requires n < |keys| && SeenIs(seen, keys, n)
    ensures Repeats(keys, n) <==> keys[n].Some? && keys[n].value in seen
  {
    if keys[n].Some? && keys[n].value in seen {
      assert Some(keys[n].value) in keys[..n];
    }
    if Repeats(keys, n) {
      var j :| 0 <= j < n && keys[j] == keys[n];
      assert keys[..n][j] == Some(keys[n].value);
    }
  }

  lemma SeenStep(seen: seq<string>, keys: seq<Key>, n: nat)
    requires n < |keys| && SeenIs(seen, keys, n)
    ensures keys[n].Some? ==> SeenIs(seen + [keys[n].value], keys, n + 1)
    ensures Repeats(keys, n) || keys[n].None? ==> SeenIs(seen, keys, n + 1)
  {
    assert keys[..n + 1] == keys[..n] + [keys[n]];
    SeenDecides(seen, keys, n);
  }

  /** The rows at the given positions. */
  ghost function At(rows: seq<Row>, idx: seq<nat>): seq<Row>
    requires forall k :: 0 <= k < |idx| ==> idx[k] < |rows|
  {
    seq(|idx|, k requires 0 <= k < |idx| => rows[idx[k]])
  }

  /** After `n` rows: their keys have been seen and their first occurrences collected. */
  ghost predicate Collected(all: seq<Row>, keys: seq<Key>, seen: seq<string>, rows: seq<Row>, n: nat)
    requires n <= |keys| == |all|
  {
    SeenIs(seen, keys, n) && rows == At(all, Firsts(keys, n))
  }

  lemma SkipCollected(all: seq<Row>, keys: seq<Key>, seen: seq<string>, rows: seq<Row>, n: nat)
    requires n < |keys| == |all| && Collected(all, keys, seen, rows, n)
    requires keys[n].Some? && keys[n].value in seen
    ensures Collected(all, keys, seen, rows, n + 1)
  {
    SeenDecides(seen, keys, n);
    SeenStep(seen, keys, n);
  }

  lemma KeepCollected(all: seq<Row>, keys: seq<Key>, seen: seq<string>, rows: seq<Row>, n: nat)
    requires n < |keys| == |all| && Collected(all, keys, seen, rows, n)
    requires keys[n].None? || keys[n].value !in seen
    ensures var seen' := if keys[n].Some? then seen + [keys[n].value] else seen;
            Collected(all, keys, seen', rows + [all[n]], n + 1)
  {
    SeenDecides(seen, keys, n);
    SeenStep(seen, keys, n);
    assert At(all, Firsts(keys, n) + [n]) == At(all, Firsts(keys, n)) + [all[n]];
  }

  lemma CollectedIsKept(all: seq<Row>, keys: seq<Key>, seen: seq<string>, rows: seq<Row>, n: nat, cap: nat)
    requires n <= |keys| == |all| && Collected(all, keys, seen, rows, n)
    requires |rows| <= cap && (n == |all| || |rows| == cap)
    ensures rows == At(all, Kept(keys, cap))
  {
    FirstsGrow(keys, n, |all|);
  }

  method RowKey(rows: seq<Row>, fold: bool, i: nat, ghost keys: seq<Key>) returns (key: Key)
    requires AreKeys(keys, rows, fold) && i < |rows|
    ensures key == keys[i]
  {
    key := DedupeKey(rows[i], fold);
  }

  method Scan(all: seq<Row>, cap: nat, fold: bool, ghost keys: seq<Key>) returns (rows: seq<Row>)
    requires AreKeys(keys, all, fold)
    ensures rows == At(all, Kept(keys, cap))
  {
    var seen: seq<string> := [];
    rows := [];
    var i := 0;
    while i < |all| && |rows| < cap
      invariant i <= |all| && |rows| <= cap
      invariant Collected(all, keys, seen, rows, i)
    {
      var key := RowKey(all, fold, i, keys);
      if key.Some? && key.value in seen {
        SkipCollected(all, keys, seen, rows, i);
      } else {
        KeepCollected(all, keys, seen, rows, i);
        if key.Some? {
          seen := seen + [key.value];
        }
        rows := rows + [all[i]];
      }
      i := i + 1;
    }
    CollectedIsKept(all, keys, seen, rows, i, cap);
  }

  method Collect(all: seq<Row>, cap: nat, fold: bool) returns (rows: seq<Row>)
    ensures |Keys(all, fold)| == |all| && rows == At(all, Kept(Keys(all, fold), cap))
  {
    rows := Scan(all, cap, fold, Keys(all, fold));
  }

  /** The holder projection: a page that does not echo the requested identity is refused; otherwise the
      early-exit loop yields the first `Cap(limit)` rows of the complete first-occurrence dedupe. */
  method HoldersJson(chain: string, network: int, address: string, limit: nat, page: Page) returns (r: Option<seq<Row>>)
    ensures r.Some? <==>
              && page.networkId == Some(network) && page.address.Some?
              && (page.address.value == address
                  || (CaseInsensitive(chain) && AsciiLower(page.address.value) == AsciiLower(address)))
    ensures var all := page.holders + page.friends;
            r.Some? ==> |Keys(all, CaseInsensitive(chain))| == |all| && r.value == At(all, Kept(Keys(all, CaseInsensitive(chain)), Cap(limit)))
  {
    if !IdentityMatches(chain, network, address, page) {
      return None;
    }
    var rows := Collect(page.holders + page.friends, Cap(limit), CaseInsensitive(chain));
    return Some(rows);
  }

  // ---- Main results -------------------------------------------------------------------------

  /** The kept rows keep their order, and no two of them carry the same key. */
  lemma KeptAreDistinct(keys: seq<Key>, cap: nat, k: nat, l: nat)
    requires k < l < |Kept(keys, cap)|
    ensures var idx := Kept(keys, cap);
            idx[k] < idx[l] && (keys[idx[l]].Some? ==> keys[idx[k]] != keys[idx[l]])
  {
    FirstsIncrease(keys, |keys|, k, l);
    FirstsIff(keys, |keys|, Firsts(keys, |keys|)[l]);
  }

  /** Exactly which rows survive: row `i` is kept if and only if it repeats no earlier key and fewer than
      `cap` such rows come before it. */
  lemma KeptIff(keys: seq<Key>, cap: nat, i: nat)
    requires i < |keys|
    ensures i in Kept(keys, cap) <==> !Repeats(keys, i) && |Firsts(keys, i)| < cap
  {
    var all := Firsts(keys, |keys|);
    FirstsIff(keys, |keys|, i);
    if !Repeats(keys, i) {
      FirstsGrow(keys, i + 1, |keys|);
      var m := |Firsts(keys, i)|;
      assert Firsts(keys, i + 1)[m] == i;
      assert all[m] == i;
    }
  }

  /** Nothing but duplicates is lost before the cap: when the list comes out shorter than the cap, every
      row left out carries the key of an earlier row that was kept. */
  lemma OmittedRepeatsKept(keys: seq<Key>, cap: nat, i: nat) returns (j: nat)
    requires |Kept(keys, cap)| < cap && i < |keys| && i !in Kept(keys, cap)
    ensures j < i && j in Kept(keys, cap) && keys[i].Some? && keys[j] == keys[i]
  {
    FirstsIff(keys, |keys|, i);
    j := FirstOccurrence(keys, i);
    FirstsIff(keys, |keys|, j);
  }

  /** What a row is known by: the wallet of the row if it has one, else that of its user, else the handle of the row,
      else that of its user. */
  ghost predicate KnownBy(row: Row, name: string) {
    || row.wallet == Some(name)
    || (row.wallet == None && row.user.Some? && row.user.value.wallet == Some(name))
    || (row.wallet == None && (row.user.Some? ==> row.user.value.wallet == None) && row.handle == Some(name))
    || (row.wallet == None && row.handle == None
        && row.user.Some? && row.user.value.wallet == None && row.user.value.handle == Some(name))
  }

  /** A row has a key exactly if it is known by a name that is not blank. */
  lemma KeyedIff(row: Row, fold: bool)
    ensures DedupeKey(row, fold).Some? <==> exists name :: KnownBy(row, name) && Trim(name) != ""
  {
    if DedupeKey(row, fold).Some? {
      assert KnownBy(row, RawKey(row).value);
    }
  }

  /** Two rows known by names that are not blank share a key exactly if the trimmed names agree, up to the case of
      ASCII letters where the chain ignores it; nothing else about the rows matters. */
  lemma SameKeyIff(a: Row, b: Row, fold: bool, x: string, y: string)
    requires KnownBy(a, x) && KnownBy(b, y) && Trim(x) != "" && Trim(y) != ""
    ensures DedupeKey(a, fold) == DedupeKey(b, fold) <==>
              Trim(x) == Trim(y) || (fold && AsciiLower(Trim(x)) == AsciiLower(Trim(y)))
  {
    assert RawKey(a) == Some(x) && RawKey(b) == Some(y);
  }
}
