/** frontend/src/components/ChatList.js: the order the chats are listed in
    and the ten-per-page pagination. Timestamps are whole numbers, ordered as
    the dates they stand for. */
module ChatList {
  import opened Wrappers
  import opened Schemas

  const ChatsPerPage := 10

  /** `a.updated_at || a.created_at`. */
  function SortKey(c: ChatResponse): int
  {
    if c.updatedAt.Some? then c.updatedAt.value else c.createdAt
  }

  predicate MostRecentFirst(s: seq<ChatResponse>)
  {
    forall i, j :: 0 <= i < j < |s| ==> SortKey(s[i]) >= SortKey(s[j])
  }

  /** The chats of `s` whose key is `k`, in the order of `s`. */
  function WithKey(s: seq<ChatResponse>, k: int): seq<ChatResponse>
  {
    if s == [] then [] else (if SortKey(s[0]) == k then [s[0]] else []) + WithKey(s[1..], k)
  }

  /** Puts `c` into the ordered `t` in front of every chat that is not more
      recent than it. */
  function Insert(c: ChatResponse, t: seq<ChatResponse>): (r: seq<ChatResponse>)
    ensures multiset(r) == multiset(t) + multiset{c}
    ensures r != [] && (r[0] == c || (t != [] && r[0] == t[0]))
  {
    if t == [] || SortKey(c) >= SortKey(t[0]) then [c] + t
    else
      assert t == [t[0]] + t[1..];
      [t[0]] + Insert(c, t[1..])
  }

  /** `[...chats].sort((a, b) => dateB - dateA)`: a stable sort, most recent
      first. */
  function SortChats(chats: seq<ChatResponse>): (r: seq<ChatResponse>)
    ensures multiset(r) == multiset(chats)
  {
    if chats == [] then []
    else
      assert chats == [chats[0]] + chats[1..];
      Insert(chats[0], SortChats(chats[1..]))
  }

  lemma {:induction false} InsertKeepsOrder(c: ChatResponse, t: seq<ChatResponse>)
    requires MostRecentFirst(t)
    ensures MostRecentFirst(Insert(c, t))
  {
    if t == [] || SortKey(c) >= SortKey(t[0]) {
    } else {
      InsertKeepsOrder(c, t[1..]);
      var r := Insert(c, t);
      forall i, j | 0 <= i < j < |r| ensures SortKey(r[i]) >= SortKey(r[j]) {
        if i == 0 {
          assert r[j] in multiset(Insert(c, t[1..]));
          assert r[j] == c || r[j] in multiset(t[1..]);
        }
      }
    }
  }

  /** The sorted list is ordered most recent first. */
  lemma {:induction false} SortChatsOrdered(chats: seq<ChatResponse>)
    ensures MostRecentFirst(SortChats(chats))
  {
    if chats != [] {
      SortChatsOrdered(chats[1..]);
      InsertKeepsOrder(chats[0], SortChats(chats[1..]));
    }
  }

  lemma {:induction false} InsertWithKey(c: ChatResponse, t: seq<ChatResponse>, k: int)
    requires MostRecentFirst(t)
    ensures WithKey(Insert(c, t), k) == (if SortKey(c) == k then [c] else []) + WithKey(t, k)
  {
    if t == [] || SortKey(c) >= SortKey(t[0]) {
      assert ([c] + t)[1..] == t;
    } else {
      assert MostRecentFirst(t[1..]) by {
        forall i, j | 0 <= i < j < |t[1..]| ensures SortKey(t[1..][i]) >= SortKey(t[1..][j]) {
          assert t[1..][i] == t[i + 1] && t[1..][j] == t[j + 1];
        }
      }
      InsertWithKey(c, t[1..], k);
      var r := Insert(c, t);
      assert r == [t[0]] + Insert(c, t[1..]);
      assert r[0] == t[0] && r[1..] == Insert(c, t[1..]);
      // c is strictly older than t[0], so at most one of them has key k
      var head := if SortKey(t[0]) == k then [t[0]] else [];
      var mine := if SortKey(c) == k then [c] else [];
      var w := WithKey(t[1..], k);
      calc {
        WithKey(r, k);
        head + WithKey(Insert(c, t[1..]), k);
        head + (mine + w);
        { if head == [] {
            assert head + (mine + w) == mine + w && head + w == w;
          } else {
            assert mine == [];
            assert mine + w == w && mine + (head + w) == head + w;
          }
        }
        mine + (head + w);
        mine + WithKey(t, k);
      }
    }
  }

  /** The sort is stable: the chats with equal keys keep their relative
      order. */
  lemma {:induction false} SortChatsStable(chats: seq<ChatResponse>, k: int)
    ensures WithKey(SortChats(chats), k) == WithKey(chats, k)
  {
    if chats != [] {
      SortChatsStable(chats[1..], k);
      SortChatsOrdered(chats[1..]);
      InsertWithKey(chats[0], SortChats(chats[1..]), k);
    }
  }

  /** `Math.ceil(n / chatsPerPage)`. */
  function TotalPages(n: nat): (r: nat)
    ensures r * ChatsPerPage >= n
    ensures r > 0 ==> (r - 1) * ChatsPerPage < n
    ensures r == 0 <==> n == 0
  {
    (n + ChatsPerPage - 1) / ChatsPerPage
  }

  /** Where `Array.prototype.slice` starts or stops for the position `pos`:
      negative positions count back from the end; both are clamped to the
      array. */
  function SliceIndex(pos: int, len: nat): (r: nat)
    ensures r <= len
    ensures 0 <= pos <= len ==> r == pos
  {
    if pos < 0 then (if len + pos < 0 then 0 else len + pos)
    else if pos > len then len
    else pos
  }

  function JsSlice(s: seq<ChatResponse>, start: int, end: int): seq<ChatResponse>
  {
    var from := SliceIndex(start, |s|);
    var to := SliceIndex(end, |s|);
    if from <= to then s[from..to] else []
  }

  function Min(a: int, b: int): int
  {
    if a <= b then a else b
  }

  /** `currentChats`: what page `page` shows of the sorted list. */
  function Page(sorted: seq<ChatResponse>, page: int): seq<ChatResponse>
  {
    var startIndex := (page - 1) * ChatsPerPage;
    JsSlice(sorted, startIndex, startIndex + ChatsPerPage)
  }

  /** A page (numbered from 1) is the window of at most ten chats starting
      ten chats per earlier page into the list. */
  lemma PageIsWindow(sorted: seq<ChatResponse>, page: int)
    requires page >= 1
    ensures var from := Min((page - 1) * ChatsPerPage, |sorted|);
      Page(sorted, page) == sorted[from..Min(page * ChatsPerPage, |sorted|)]
    ensures |Page(sorted, page)| <= ChatsPerPage
    ensures 1 <= page <= TotalPages(|sorted|) ==> Page(sorted, page) != []
  {
  }

  /** Pages 1 to `k`, one after another. */
  function PagesUpTo(sorted: seq<ChatResponse>, k: nat): seq<ChatResponse>
  {
    if k == 0 then [] else PagesUpTo(sorted, k - 1) + Page(sorted, k)
  }

  lemma {:induction false} PagesUpToPrefix(sorted: seq<ChatResponse>, k: nat)
    ensures PagesUpTo(sorted, k) == sorted[..Min(k * ChatsPerPage, |sorted|)]
  {
    if k > 0 {
      PagesUpToPrefix(sorted, k - 1);
      PageIsWindow(sorted, k);
      var a := Min((k - 1) * ChatsPerPage, |sorted|);
      var b := Min(k * ChatsPerPage, |sorted|);
      assert sorted[..a] + sorted[a..b] == sorted[..b];
    }
  }

  /** Read one after another, the pages show every chat of the list once, in
      order. */
  lemma PagesCoverList(sorted: seq<ChatResponse>)
    ensures PagesUpTo(sorted, TotalPages(|sorted|)) == sorted
  {
    PagesUpToPrefix(sorted, TotalPages(|sorted|));
  }

  /** `Math.max(1, Math.min(page, totalPages))`. */
  function Clamp(page: int, totalPages: nat): (r: int)
    ensures r >= 1
    ensures totalPages >= 1 ==> r <= totalPages
    ensures 1 <= page <= totalPages ==> r == page
    ensures page > totalPages >= 1 ==> r == totalPages
    ensures totalPages == 0 || page < 1 ==> r == 1
  {
    var m := if page < totalPages then page else totalPages;
    if 1 > m then 1 else m
  }

  /** The controls are shown only when there is more than one page. */
  predicate ShowsPagination(totalPages: nat)
  {
    totalPages > 1
  }

  predicate PreviousDisabled(currentPage: int)
  {
    currentPage == 1
  }

  predicate NextDisabled(currentPage: int, totalPages: nat)
  {
    currentPage == totalPages
  }

  /** On a page in range, previous and next move by one page and stay in
      range, and a button is disabled exactly when pressing it would stay on
      the same page. */
  lemma NavigationMovesByOne(currentPage: int, totalPages: nat)
    requires 1 <= currentPage <= totalPages
    ensures 1 <= Clamp(currentPage - 1, totalPages) <= totalPages
    ensures 1 <= Clamp(currentPage + 1, totalPages) <= totalPages
    ensures PreviousDisabled(currentPage) <==> Clamp(currentPage - 1, totalPages) == currentPage
    ensures NextDisabled(currentPage, totalPages) <==> Clamp(currentPage + 1, totalPages) == currentPage
    ensures !PreviousDisabled(currentPage) ==> Clamp(currentPage - 1, totalPages) == currentPage - 1
    ensures !NextDisabled(currentPage, totalPages) ==> Clamp(currentPage + 1, totalPages) == currentPage + 1
  {
  }

  /** `currentPage` is kept when the list changes: a user who moved to page 2
      of eleven chats and then deleted one is left on page 2 of a ten-chat
      list, which shows no chat and no controls to go back. */
  lemma StalePageAfterDelete(before: seq<ChatResponse>, after: seq<ChatResponse>)
    requires |before| == 11 && |after| == 10
    ensures TotalPages(|before|) == 2 && Clamp(1 + 1, TotalPages(|before|)) == 2
    ensures after != [] && Page(after, 2) == []
    ensures !ShowsPagination(TotalPages(|after|))
  {
  }

  /** The page to show once `currentPage` is clamped to the current list. */
  function ShownPage(sorted: seq<ChatResponse>, currentPage: int): seq<ChatResponse>
  {
    Page(sorted, Clamp(currentPage, TotalPages(|sorted|)))
  }

  /** Clamping against the current list never shows an empty page of a
      non-empty list, and changes nothing while the page is in range. */
  lemma ShownPageNeverEmpty(sorted: seq<ChatResponse>, currentPage: int)
    ensures sorted != [] ==> ShownPage(sorted, currentPage) != []
    ensures 1 <= currentPage <= TotalPages(|sorted|) ==> ShownPage(sorted, currentPage) == Page(sorted, currentPage)
  {
    if sorted != [] {
      PageIsWindow(sorted, Clamp(currentPage, TotalPages(|sorted|)));
    }
  }

  /** The `currentPage` state of the list. */
  class Pager {
    var currentPage: int

    ghost predicate Valid()
      reads this
    {
      currentPage >= 1
    }

    constructor ()
      ensures currentPage == 1 && Valid()
    {
      currentPage := 1;
    }

    method GoToPage(page: int, totalPages: nat)
      modifies this
      ensures currentPage == Clamp(page, totalPages) && Valid()
    {
      var m := if page < totalPages then page else totalPages;
      currentPage := if 1 > m then 1 else m;
    }

    method GoToPreviousPage(totalPages: nat)
      modifies this
      ensures currentPage == Clamp(old(currentPage) - 1, totalPages) && Valid()
    {
      GoToPage(currentPage - 1, totalPages);
    }

    method GoToNextPage(totalPages: nat)
      modifies this
      ensures currentPage == Clamp(old(currentPage) + 1, totalPages) && Valid()
    {
      GoToPage(currentPage + 1, totalPages);
    }

    /** `currentChats`: the current page of the sorted list, sliced with
        `currentPage` as it stands, which may lie past the end of a list
        that has shrunk since the page was chosen. */
    method CurrentChats(chats: seq<ChatResponse>) returns (shown: seq<ChatResponse>)
      requires Valid()
      ensures shown == Page(SortChats(chats), currentPage)
      ensures |shown| <= ChatsPerPage && forall c :: c in shown ==> c in chats
      ensures currentPage <= TotalPages(|chats|) ==> (chats != [] <==> shown != [])
    {
      var sorted := SortChats(chats);
      var startIndex := (currentPage - 1) * ChatsPerPage;
      shown := JsSlice(sorted, startIndex, startIndex + ChatsPerPage);
      PageIsWindow(sorted, currentPage);
      forall c | c in shown ensures c in chats {
        assert c in multiset(sorted);
      }
    }

    /** The corrected `currentChats`: the page is clamped to the list as it
        is now, so a non-empty list never shows an empty page. */
    method ShownChats(chats: seq<ChatResponse>) returns (shown: seq<ChatResponse>)
      ensures shown == ShownPage(SortChats(chats), currentPage)
      ensures |shown| <= ChatsPerPage && (chats != [] <==> shown != [])
      ensures forall c :: c in shown ==> c in chats
    {
      var sorted := SortChats(chats);
      var page := Clamp(currentPage, TotalPages(|sorted|));
      PageIsWindow(sorted, page);
      ShownPageNeverEmpty(sorted, currentPage);
      shown := Page(sorted, page);
      forall c | c in shown ensures c in chats {
        assert c in multiset(sorted);
      }
    }
  }
}
