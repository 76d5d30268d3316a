/** Listing an account's modules and resources page by page, with the key of the next item as cursor.

    A state key of the account is its encoded path behind the path's encoded length: keys are ordered
    by the length prefix, then by the kind of path, then by the encoded name. */
module Pagination {
  import opened Common

  datatype Kind = Code | Resource | ResourceGroup | Unreadable

  datatype Key = Key(prefix: nat, kind: Kind, name: nat)

  function Tag(k: Kind): nat {
    match k case Code => 0 case Resource => 1 case ResourceGroup => 2 case Unreadable => 3
  }

  predicate Less(a: Key, b: Key) {
    a.prefix < b.prefix || (a.prefix == b.prefix &&
      (Tag(a.kind) < Tag(b.kind) || (Tag(a.kind) == Tag(b.kind) && a.name < b.name)))
  }

  ghost predicate Sorted(keys: seq<Key>) {
    forall i, j :: 0 <= i < j < |keys| ==> Less(keys[i], keys[j])
  }

  datatype Listing = Modules | Resources

  predicate Listed(l: Listing, k: Key) {
    match l
    case Modules => k.kind.Code?
    case Resources => k.kind.Resource? || k.kind.ResourceGroup?
  }

  /** The cursor that stands for an item: a module's own key, but for a resource or a resource group
      the key of the plain resource of that name. */
  function Cursor(l: Listing, k: Key): Key {
    match l
    case Modules => k
    case Resources => k.(kind := Resource)
  }

  /** The storage iterator: from the first key that is not before the cursor. */
  function Seek(keys: seq<Key>, cursor: Option<Key>): seq<Key> {
    if keys != [] && cursor.Some? && Less(keys[0], cursor.value) then Seek(keys[1..], cursor) else keys
  }

  /** What the listing keeps of a scan: its own items, and the keys it cannot read. */
  function Keep(l: Listing, keys: seq<Key>): seq<Key> {
    if keys == [] then []
    else (if Listed(l, keys[0]) || keys[0].kind.Unreadable? then [keys[0]] else []) + Keep(l, keys[1..])
  }

  datatype Page = Failed | Page(items: seq<Key>, next: Option<Key>)

  predicate Readable(keys: seq<Key>) {
    forall i :: 0 <= i < |keys| ==> !keys[i].kind.Unreadable?
  }

  /** One page: an unreadable key among the items, or as the next one, fails the request. */
  function GetPage(l: Listing, keys: seq<Key>, cursor: Option<Key>, limit: nat): Page {
    var items := Keep(l, Seek(keys, cursor));
    if !Readable(items[..Min(limit + 1, |items|)]) then Failed
    else if limit < |items| then Page(items[..limit], Some(Cursor(l, items[limit])))
    else Page(items, None)
  }

  /** What a client has after following the cursors for as many pages as `limits` has entries, or
      until there is no next page. */
  datatype Walk = Broken | Walk(items: seq<Key>, next: Option<Key>)

  function Follow(l: Listing, keys: seq<Key>, cursor: Option<Key>, limits: seq<nat>): Walk
    decreases |limits|
  {
    if limits == [] then Walk([], cursor)
    else
      match GetPage(l, keys, cursor, limits[0])
      case Failed => Broken
      case Page(items, next) =>
        if next.None? || |limits| == 1 then Walk(items, next)
        else
          match Follow(l, keys, next, limits[1..])
          case Broken => Broken
          case Walk(rest, last) => Walk(items + rest, last)
  }

  function Sum(limits: seq<nat>): nat {
    if limits == [] then 0 else limits[0] + Sum(limits[1..])
  }

  ghost predicate Positive(limits: seq<nat>) {
    forall i :: 0 <= i < |limits| ==> limits[i] > 0
  }

  // ---------------------------------------------------------------- seeking and keeping

  lemma LessIsTransitive(a: Key, b: Key, c: Key)
    requires Less(a, b) && Less(b, c)
    ensures Less(a, c)
  {
  }

  lemma {:induction false} KeepIsSorted(l: Listing, keys: seq<Key>)
    requires Sorted(keys)
    ensures Sorted(Keep(l, keys))
    ensures forall k :: k in Keep(l, keys) ==> k in keys
  {
    if keys != [] {
      KeepIsSorted(l, keys[1..]);
      var rest := Keep(l, keys[1..]);
      forall j | 0 <= j < |rest| ensures Less(keys[0], rest[j]) {
        assert rest[j] in keys[1..];
        var i :| 0 <= i < |keys[1..]| && keys[1..][i] == rest[j];
        assert keys[i + 1] == rest[j];
      }
    }
  }

  /** The items are all the account's modules, or all its resources and resource groups, in key order and
      each once, together with the keys that cannot be read. */
  ghost predicate ListsAll(l: Listing, keys: seq<Key>, items: seq<Key>) {
    && Sorted(items)
    && forall k ::
         k in items <==>
         && k in keys
         && (match l
             case Modules => k.kind in {Code, Unreadable}
             case Resources => k.kind in {Resource, ResourceGroup, Unreadable})
  }

  lemma {:induction false} KeptIff(l: Listing, keys: seq<Key>, k: Key)
    ensures k in Keep(l, keys) <==> k in keys && (Listed(l, k) || k.kind.Unreadable?)
  {
    if keys != [] {
      KeptIff(l, keys[1..], k);
      assert k in keys <==> k == keys[0] || k in keys[1..];
    }
  }

  /** Nothing is left out and nothing is added. */
  lemma KeepListsAll(l: Listing, keys: seq<Key>)
    requires Sorted(keys)
    ensures ListsAll(l, keys, Keep(l, keys))
  {
    KeepIsSorted(l, keys);
    forall k ensures k in Keep(l, keys) <==> k in keys && (Listed(l, k) || k.kind.Unreadable?) { KeptIff(l, keys, k); }
    hide Sorted, Keep;
  }

  /** Seeking and keeping commute. */
  lemma {:induction false} KeepAfterSeek(l: Listing, keys: seq<Key>, cursor: Option<Key>)
    requires Sorted(keys)
    ensures Keep(l, Seek(keys, cursor)) == Seek(Keep(l, keys), cursor)
  {
    if keys != [] {
      if cursor.Some? && Less(keys[0], cursor.value) {
        KeepAfterSeek(l, keys[1..], cursor);
        if Listed(l, keys[0]) || keys[0].kind.Unreadable? {
          assert Keep(l, keys)[1..] == Keep(l, keys[1..]);
        } else {
          assert Keep(l, keys) == Keep(l, keys[1..]);
        }
      } else {
        KeepIsSorted(l, keys);
        var kept := Keep(l, keys);
        if kept != [] && cursor.Some? && Less(kept[0], cursor.value) {
          assert kept[0] in keys;
          var i :| 0 <= i < |keys| && keys[i] == kept[0];
          if i > 0 { LessIsTransitive(keys[0], keys[i], cursor.value); }
        }
      }
    }
  }

  /** Where a seek lands: at `n` exactly when the items before `n` are before the cursor and the
      item at `n` is not. */
  lemma {:induction false} SeekLands(items: seq<Key>, cursor: Key, n: nat)
    requires n <= |items|
    requires forall i :: 0 <= i < n ==> Less(items[i], cursor)
    requires n < |items| ==> !Less(items[n], cursor)
    ensures Seek(items, Some(cursor)) == items[n..]
    decreases n
  {
    if n > 0 {
      SeekLands(items[1..], cursor, n - 1);
    }
  }

  // ---------------------------------------------------------------- walking the list

  /** What a listing should return of the items from `n` on: as many as the limits allow. */
  function Expected(l: Listing, items: seq<Key>, n: nat, limits: seq<nat>): Walk
    requires n <= |items|
  {
    var last := n + Sum(limits);
    if last < |items| then Walk(items[n..last], Some(Cursor(l, items[last]))) else Walk(items[n..], None)
  }

  /** The cursor of an item is above the item before it. */
  predicate Separated(l: Listing, a: Key, b: Key) {
    Less(a, Cursor(l, b))
  }

  /** Every item but the first is separated from its predecessor, so its cursor leads back to it. */
  ghost predicate Clean(l: Listing, items: seq<Key>) {
    forall i :: 0 < i < |items| ==> Separated(l, items[i - 1], items[i])
  }

  lemma CursorNotAbove(l: Listing, k: Key)
    requires Listed(l, k)
    ensures !Less(k, Cursor(l, k))
  {
  }

  lemma CursorLeadsBack(l: Listing, items: seq<Key>, n: nat)
    requires Sorted(items) && 0 < n < |items| && Listed(l, items[n]) && Separated(l, items[n - 1], items[n])
    ensures LeadsTo(items, Some(Cursor(l, items[n])), n)
  {
    var cursor := Cursor(l, items[n]);
    forall i | 0 <= i < n ensures Less(items[i], cursor) {
      if i < n - 1 { LessIsTransitive(items[i], items[n - 1], cursor); }
    }
    CursorNotAbove(l, items[n]);
    SeekLands(items, cursor, n);
  }

  lemma {:induction false} KeptAreListed(l: Listing, keys: seq<Key>)
    requires Readable(keys)
    ensures forall i :: 0 <= i < |Keep(l, keys)| ==> Listed(l, Keep(l, keys)[i]) && !Keep(l, keys)[i].kind.Unreadable?
  {
    if keys != [] {
      assert forall i :: 0 <= i < |keys[1..]| ==> keys[1..][i] == keys[i + 1];
      KeptAreListed(l, keys[1..]);
    }
  }

  /** `cursor` leads to the item at `n`. */
  ghost predicate LeadsTo(items: seq<Key>, cursor: Option<Key>, n: nat) {
    n <= |items| && Seek(items, cursor) == items[n..]
  }

  /** A page from the n-th item, for every account: it fails if and only if one of its items, or the one
      after them, cannot be read; otherwise it has the items in order and names the next one. */
  lemma PageIs(l: Listing, keys: seq<Key>, cursor: Option<Key>, n: nat, limit: nat)
    requires Sorted(keys) && LeadsTo(Keep(l, keys), cursor, n)
    ensures
      var items := Keep(l, keys);
      GetPage(l, keys, cursor, limit) ==
        if exists i :: n <= i <= n + limit && i < |items| && items[i].kind.Unreadable? then Failed
        else if n + limit < |items| then Page(items[n..n + limit], Some(Cursor(l, items[n + limit])))
        else Page(items[n..], None)
  {
    hide Sorted, Less, Keep, Seek, Cursor, Listed;
    var items := Keep(l, keys);
    KeepAfterSeek(l, keys, cursor);
    var rest := items[n..];
    assert forall i :: 0 <= i < |rest| ==> rest[i] == items[n + i];
    if i :| n <= i <= n + limit && i < |items| && items[i].kind.Unreadable? {
      assert rest[..Min(limit + 1, |rest|)][i - n] == items[i];
    }
    if n + limit < |items| {
      assert rest[..limit] == items[n..n + limit];
    }
  }

  lemma PageFrom(l: Listing, keys: seq<Key>, cursor: Option<Key>, n: nat, limit: nat)
    requires Sorted(keys) && Readable(keys) && LeadsTo(Keep(l, keys), cursor, n)
    ensures var items := Keep(l, keys);
      GetPage(l, keys, cursor, limit) ==
        if n + limit < |items| then Page(items[n..n + limit], Some(Cursor(l, items[n + limit])))
        else Page(items[n..], None)
  {
    hide Sorted, Keep, Cursor, Listed, GetPage, LeadsTo;
    KeptAreListed(l, keys);
    assert n <= |Keep(l, keys)| by { Lands(Keep(l, keys), cursor, n); }
    PageIs(l, keys, cursor, n, limit);
  }

  lemma Lands(items: seq<Key>, cursor: Option<Key>, n: nat)
    requires LeadsTo(items, cursor, n)
    ensures n <= |items|
  {
  }

  lemma NextCursor(l: Listing, keys: seq<Key>, m: nat)
    requires Sorted(keys) && Readable(keys) && Clean(l, Keep(l, keys)) && 0 < m < |Keep(l, keys)|
    ensures LeadsTo(Keep(l, keys), Some(Cursor(l, Keep(l, keys)[m])), m)
  {
    hide Keep, Seek, Less, Listed, Cursor, Separated;
    KeepIsSorted(l, keys);
    KeptAreListed(l, keys);
    CursorLeadsBack(l, Keep(l, keys), m);
  }

  lemma ExpectedJoins(l: Listing, items: seq<Key>, n: nat, limits: seq<nat>)
    requires |limits| > 1 && n + limits[0] <= |items|
    ensures var m := n + limits[0];
            var rest := Expected(l, items, m, limits[1..]);
      rest.Walk? && Expected(l, items, n, limits) == Walk(items[n..m] + rest.items, rest.next)
  {
    var m, last := n + limits[0], n + Sum(limits);
    if last < |items| {
      assert items[n..m] + items[m..last] == items[n..last];
    } else {
      assert items[n..m] + items[m..] == items[n..];
    }
  }

  lemma ExpectedStops(l: Listing, items: seq<Key>, n: nat, limits: seq<nat>)
    requires limits != [] && n <= |items| && (|limits| == 1 || |items| <= n + limits[0])
    ensures Expected(l, items, n, limits)
         == if n + limits[0] < |items| then Walk(items[n..n + limits[0]], Some(Cursor(l, items[n + limits[0]])))
            else Walk(items[n..], None)
  {
    hide Cursor;
    if |limits| == 1 {
      assert limits[1..] == [] && Sum(limits) == limits[0];
    }
  }

  lemma FollowStep(l: Listing, keys: seq<Key>, cursor: Option<Key>, limits: seq<nat>, items: seq<Key>,
                   next: Option<Key>)
    requires limits != [] && GetPage(l, keys, cursor, limits[0]) == Page(items, next)
    ensures next.None? || |limits| == 1 ==> Follow(l, keys, cursor, limits) == Walk(items, next)
    ensures next.Some? && |limits| > 1 && Follow(l, keys, next, limits[1..]).Walk? ==>
      var rest := Follow(l, keys, next, limits[1..]);
      Follow(l, keys, cursor, limits) == Walk(items + rest.items, rest.next)
  {
    hide GetPage;
  }

  lemma {:induction false} WalkFrom(l: Listing, keys: seq<Key>, cursor: Option<Key>, n: nat, limits: seq<nat>)
    requires Sorted(keys) && Readable(keys) && limits != [] && Positive(limits)
    requires LeadsTo(Keep(l, keys), cursor, n) && Clean(l, Keep(l, keys))
    ensures Follow(l, keys, cursor, limits) == Expected(l, Keep(l, keys), n, limits)
    decreases |limits|
  {
    var items := Keep(l, keys);
    hide Keep, GetPage, Sorted, Cursor, Readable, Clean, Follow, Expected;
    assert n <= |items|;
    hide LeadsTo;
    PageFrom(l, keys, cursor, n, limits[0]);
    var m := n + limits[0];
    if m < |items| && |limits| > 1 {
      var next := Some(Cursor(l, items[m]));
      NextCursor(l, keys, m);
      WalkFrom(l, keys, next, m, limits[1..]);
      ExpectedJoins(l, items, n, limits);
      FollowStep(l, keys, cursor, limits, items[n..m], next);
    } else {
      ExpectedStops(l, items, n, limits);
      var page := GetPage(l, keys, cursor, limits[0]);
      FollowStep(l, keys, cursor, limits, page.items, page.next);
    }
  }

  /** On an account whose items are separated, following the cursors with any positive limits yields
      the items in key order, each once: after pages of these limits the client has the first so many
      of them, and there is no next page exactly when it has them all.  In particular it ends. */
  lemma CleanWalks(l: Listing, keys: seq<Key>, limits: seq<nat>)
    requires Sorted(keys) && Readable(keys) && limits != [] && Positive(limits) && Clean(l, Keep(l, keys))
    ensures Follow(l, keys, None, limits) == Expected(l, Keep(l, keys), 0, limits)
  {
    assert LeadsTo(Keep(l, keys), None, 0);
    WalkFrom(l, keys, None, 0, limits);
  }

  lemma {:induction false} SumAtLeastLength(limits: seq<nat>)
    requires Positive(limits)
    ensures Sum(limits) >= |limits|
  {
    if limits != [] { SumAtLeastLength(limits[1..]); }
  }

  /** Modules: any positive limits, any account. */
  lemma ModulePages(keys: seq<Key>, limits: seq<nat>)
    requires Sorted(keys) && Readable(keys) && limits != [] && Positive(limits)
    ensures Follow(Modules, keys, None, limits) == Expected(Modules, Keep(Modules, keys), 0, limits)
    ensures |limits| >= |Keep(Modules, keys)| ==> Follow(Modules, keys, None, limits) == Walk(Keep(Modules, keys), None)
    ensures ListsAll(Modules, keys, Keep(Modules, keys))
  {
    KeepListsAll(Modules, keys);
    CleanWalks(Modules, keys, limits);
    SumAtLeastLength(limits);
    assert Keep(Modules, keys)[0..] == Keep(Modules, keys);
  }

  /** Resources: the same for an account without resource groups. */
  lemma ResourcePagesWithoutGroups(keys: seq<Key>, limits: seq<nat>)
    requires Sorted(keys) && Readable(keys) && limits != [] && Positive(limits)
    requires forall i :: 0 <= i < |keys| ==> !keys[i].kind.ResourceGroup?
    ensures Follow(Resources, keys, None, limits) == Expected(Resources, Keep(Resources, keys), 0, limits)
    ensures ListsAll(Resources, keys, Keep(Resources, keys))
  {
    var items := Keep(Resources, keys);
    KeepListsAll(Resources, keys);
    KeptAreListed(Resources, keys);
    forall i | 0 < i < |items| ensures Separated(Resources, items[i - 1], items[i]) {
      assert items[i] in keys;
      assert Cursor(Resources, items[i]) == items[i];
    }
    CleanWalks(Resources, keys, limits);
  }

  // ---------------------------------------------------------------- resource groups

  lemma ExpectedTwo(items: seq<Key>, i: nat)
    requires 0 < i < |items|
    ensures var e := Expected(Resources, items, 0, [i, 1]); e.Walk? && |e.items| > i && e.items[i] == items[i]
  {
    assert [i, 1][1..] == [1] && [1][1..] == [];
    assert Sum([i, 1]) == i + Sum([1]) && Sum([1]) == 1 + Sum([]);
  }

  lemma FollowTwo(keys: seq<Key>, first: seq<Key>, cursor: Key, second: seq<Key>, next: Option<Key>, i: nat)
    requires GetPage(Resources, keys, None, i) == Page(first, Some(cursor))
    requires GetPage(Resources, keys, Some(cursor), 1) == Page(second, next)
    ensures Follow(Resources, keys, None, [i, 1]) == Walk(first + second, next)
  {
    hide GetPage;
    assert [i, 1][1..] == [1];
    assert Follow(Resources, keys, Some(cursor), [1]) == Walk(second, next);
  }

  lemma LandsBefore(items: seq<Key>, i: nat) returns (n: nat)
    requires Sorted(items) && 0 < i < |items| && !Separated(Resources, items[i - 1], items[i])
    ensures n < i && items[n] != items[i] && LeadsTo(items, Some(Cursor(Resources, items[i])), n)
  {
    n := FirstFrom(items, Cursor(Resources, items[i]), i - 1);
    assert Less(items[n], items[i]);
  }

  /** The cursor of an item that is not separated leads back before it, so an item comes again. */
  lemma UncleanRepeats(keys: seq<Key>, i: nat)
    requires Sorted(keys) && Readable(keys)
    requires var items := Keep(Resources, keys); 0 < i < |items| && !Separated(Resources, items[i - 1], items[i])
    ensures Follow(Resources, keys, None, [i, 1]) != Expected(Resources, Keep(Resources, keys), 0, [i, 1])
  {
    var items := Keep(Resources, keys);
    assert LeadsTo(items, None, 0) by { hide Sorted, Separated, Keep; }
    hide Sorted, Keep, Cursor, Readable, LeadsTo, GetPage, Separated, Follow, Expected;
    KeepIsSorted(Resources, keys);
    var n := LandsBefore(items, i);
    var cursor := Cursor(Resources, items[i]);
    PageFrom(Resources, keys, None, 0, i);
    PageFrom(Resources, keys, Some(cursor), n, 1);
    FollowTwo(keys, items[0..i], cursor, items[n..n + 1], Some(Cursor(Resources, items[n + 1])), i);
    ExpectedTwo(items, i);
    assert (items[0..i] + items[n..n + 1])[i] == items[n];
  }

  /** A seek that an item stops lands at it or before. */
  lemma {:induction false} FirstFrom(items: seq<Key>, cursor: Key, i: nat) returns (n: nat)
    requires Sorted(items) && i < |items| && !Less(items[i], cursor)
    ensures n <= i && LeadsTo(items, Some(cursor), n)
    decreases i
  {
    if i > 0 && !Less(items[i - 1], cursor) {
      n := FirstFrom(items, cursor, i - 1);
    } else {
      n := i;
      forall j | 0 <= j < i ensures Less(items[j], cursor) {
        if j < i - 1 { LessIsTransitive(items[j], items[i - 1], cursor); }
      }
      SeekLands(items, cursor, i);
    }
  }

  ghost predicate WalksAsExpected(keys: seq<Key>) {
    forall limits :: limits != [] && Positive(limits) ==>
      Follow(Resources, keys, None, limits) == Expected(Resources, Keep(Resources, keys), 0, limits)
  }

  /** Resources, exactly: paging is right for all limits if and only if no item but the first is a
      resource group whose predecessor is not before the plain resource of the group's name. */
  lemma ResourcePagesIff(keys: seq<Key>)
    requires Sorted(keys) && Readable(keys)
    ensures WalksAsExpected(keys) <==> Clean(Resources, Keep(Resources, keys))
    ensures ListsAll(Resources, keys, Keep(Resources, keys))
  {
    hide Sorted, Readable, Keep, WalksAsExpected, Clean, ListsAll;
    KeepListsAll(Resources, keys);
    WalksIffClean(keys);
  }

  lemma WalksIffClean(keys: seq<Key>)
    requires Sorted(keys) && Readable(keys)
    ensures WalksAsExpected(keys) <==> Clean(Resources, Keep(Resources, keys))
  {
    hide Sorted, Less, Keep, Readable, Follow, Expected, Separated;
    var items := Keep(Resources, keys);
    if Clean(Resources, items) {
      forall limits | limits != [] && Positive(limits)
        ensures Follow(Resources, keys, None, limits) == Expected(Resources, items, 0, limits)
      {
        CleanWalks(Resources, keys, limits);
      }
    } else {
      var i :| 0 < i < |items| && !Separated(Resources, items[i - 1], items[i]);
      UncleanRepeats(keys, i);
      assert Positive([i, 1]);
    }
  }

  function Ones(n: nat): seq<nat> {
    if n == 0 then [] else [1] + Ones(n - 1)
  }

  /** An account where paging never ends: a resource and a resource group of a smaller name of the
      same length.  One item a page, every page is the resource again, and there is always a next. */
  lemma {:induction false} GroupsCanLoop(prefix: nat, a: nat, b: nat, pages: nat)
    requires a < b && pages > 0
    ensures var resource, group := Key(prefix, Resource, b), Key(prefix, ResourceGroup, a);
      && Sorted([resource, group]) && Readable([resource, group])
      && Follow(Resources, [resource, group], None, Ones(pages))
          == Walk(seq(pages, _ => resource), Some(Key(prefix, Resource, a)))
  {
    var resource, group := Key(prefix, Resource, b), Key(prefix, ResourceGroup, a);
    LoopPage(prefix, a, b, None);
    if pages > 1 {
      LoopPages(prefix, a, b, pages - 1);
      assert Ones(pages)[1..] == Ones(pages - 1);
      assert [resource] + seq(pages - 1, _ => resource) == seq(pages, _ => resource);
    } else {
      assert seq(1, _ => resource) == [resource];
    }
  }

  lemma LoopPage(prefix: nat, a: nat, b: nat, cursor: Option<Key>)
    requires a < b && (cursor.None? || cursor == Some(Key(prefix, Resource, a)))
    ensures var resource, group := Key(prefix, Resource, b), Key(prefix, ResourceGroup, a);
      GetPage(Resources, [resource, group], cursor, 1) == Page([resource], Some(Key(prefix, Resource, a)))
  {
    var resource, group := Key(prefix, Resource, b), Key(prefix, ResourceGroup, a);
    var keys := [resource, group];
    assert Seek(keys, cursor) == keys;
    assert keys[1..] == [group] && keys[1..][1..] == [];
    assert Keep(Resources, keys) == [resource] + Keep(Resources, [group]) == keys;
  }

  lemma {:induction false} LoopPages(prefix: nat, a: nat, b: nat, pages: nat)
    requires a < b && pages > 0
    ensures var resource, group := Key(prefix, Resource, b), Key(prefix, ResourceGroup, a);
      Follow(Resources, [resource, group], Some(Key(prefix, Resource, a)), Ones(pages))
      == Walk(seq(pages, _ => resource), Some(Key(prefix, Resource, a)))
  {
    var resource := Key(prefix, Resource, b);
    LoopPage(prefix, a, b, Some(Key(prefix, Resource, a)));
    if pages > 1 {
      LoopPages(prefix, a, b, pages - 1);
      assert Ones(pages)[1..] == Ones(pages - 1);
      assert [resource] + seq(pages - 1, _ => resource) == seq(pages, _ => resource);
    } else {
      assert seq(1, _ => resource) == [resource];
    }
  }
}
