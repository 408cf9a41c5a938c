/** The intrusive circular page list, with its pointers, page locks and try-locks. */
module PageLists {
  import opened RingProtocol

  const MAX_ACCESS_ATTEMPTS: nat := 30

  class Page {
    var flink: Page?
    var blink: Page?
    var locked: bool

    constructor ()
      ensures !locked
    {
      flink, blink, locked := null, null, false;
    }

    /** Succeeds on a free lock, unless another thread is faster. */
    method TryLock(lost: bool) returns (ok: bool)
      modifies this`locked
      ensures ok == (!old(locked) && !lost) && locked == (old(locked) || ok)
    {
      ok := !locked && !lost;
      locked := locked || ok;
    }

    method Unlock()
      requires locked
      modifies this`locked
      ensures !locked
    {
      locked := false;
    }
  }

  class PageList {
    const head: Page
    var size: int
    ghost var pages: seq<Page>
    // Which of the tries for a lock are lost to other threads is given from outside; tries counts those made.
    const lost: nat -> bool
    var tries: nat

    /** How many of the tries from i on and before j are lost. */
    ghost function LostTries(i: nat, j: nat): nat {
      if j <= i then 0 else LostTries(i, j - 1) + if lost(j - 1) then 1 else 0
    }

    ghost function Ring(): seq<Page>
      reads this`pages
    {
      [head] + pages
    }

    /** The links of a ring of distinct pages go round it, in both directions. */
    static ghost predicate Linked(r: seq<Page>)
      reads r`flink, r`blink
    {
      && (forall i, j :: 0 <= i < j < |r| ==> r[i] != r[j])
      && (forall i {:trigger r[i].flink} :: 0 <= i < |r| ==> r[i].flink == After(r, i))
      && (forall i {:trigger r[i].blink} :: 0 < i < |r| ==> r[i].blink == r[i - 1])
      && (|r| > 0 ==> r[0].blink == r[|r| - 1])
    }

    ghost predicate Valid()
      reads this`pages, head`flink, head`blink, pages`flink, pages`blink
    {
      Linked(Ring())
    }

    /** initialize_page_list: the head points to itself. */
    constructor (schedule: nat -> bool)
      ensures Valid() && pages == [] && size == 0 && !head.locked && fresh(head)
      ensures lost == schedule && tries == 0
    {
      var h := new Page();
      head, lost, tries := h, schedule, 0;
      size := 0;
      pages := [];
      new;
      h.flink := h;
      h.blink := h;
    }

    /** insert_to_list_tail. */
    method InsertToTail(page: Page)
      requires Valid() && page !in Ring()
      modifies this`pages, head`flink, head`blink, pages`flink, page`flink, page`blink
      ensures Valid() && pages == old(pages) + [page]
      ensures forall x :: x in Ring() ==> x.locked == old(x.locked)
    {
      ghost var r := Ring();
      var blink := head.blink;
      page.flink := head;
      page.blink := blink;
      blink.flink := page;
      head.blink := page;
      pages := pages + [page];
      assert Ring() == r + [page];
      assert forall i :: 0 <= i < |r| ==> Ring()[i] == r[i];
    }

    /** remove_page_from_list: unlink the page at position k. */
    method Remove(page: Page, ghost k: nat)
      requires Valid() && k < |pages| && pages[k] == page
      modifies this`pages, head`flink, head`blink, pages`flink, pages`blink
      ensures Valid() && pages == old(pages)[..k] + old(pages)[k + 1..]
      ensures page.flink == old(page.flink) && page.blink == old(page.blink)
      ensures forall x :: x in old(Ring()) ==> x.locked == old(x.locked)
    {
      ghost var r := Ring();
      ghost var front, rest := r[..k + 1], r[k + 2..];
      Pieces(r, k);
      var flink, blink := page.flink, page.blink;
      blink.flink := flink;
      flink.blink := blink;
      pages := pages[..k] + pages[k + 1..];
      assert Ring() == front + rest;
      if rest == [] {
        assert Ring() == front;
        Close(front);
      } else {
        Join(front, rest);
      }
    }

    /** What is before and after a page, and its links. */
    static lemma Pieces(r: seq<Page>, k: nat)
      requires Linked(r) && k + 1 < |r|
      ensures Segment(r[..k + 1]) && Segment(r[k + 2..]) && Apart(r[..k + 1], r[k + 2..])
      ensures r[k + 1].blink == r[k] && r[k + 1].flink == if k + 2 < |r| then r[k + 2] else r[0]
      ensures k + 2 < |r| ==> r[|r| - 1].flink == r[0] && r[0].blink == r[|r| - 1]
    {
      assert r[|r| - 1].flink == After(r, |r| - 1);
    }

    static lemma Close(r: seq<Page>)
      requires Segment(r) && 0 < |r| && r[|r| - 1].flink == r[0] && r[0].blink == r[|r| - 1]
      ensures Linked(r)
    {
    }

    /** TryAcquireSRWLockShared fails while somebody has the list exclusively. */
    method TryLockShared() returns (ok: bool)
      modifies this`tries
      ensures ok == !lost(old(tries)) && tries == old(tries) + 1
    {
      ok := !lost(tries);
      tries := tries + 1;
    }

    method TryLock(page: Page) returns (ok: bool)
      modifies this`tries, page`locked
      ensures ok == (!old(page.locked) && !lost(old(tries))) && tries == old(tries) + 1
      ensures page.locked == (old(page.locked) || ok)
    {
      ok := page.TryLock(lost(tries));
      tries := tries + 1;
    }

    /** Who is locked. */
    static ghost function Locks(r: seq<Page>): (b: seq<bool>)
      reads r
      ensures |b| == |r| && forall i :: 0 <= i < |r| ==> b[i] == r[i].locked
    {
      seq(|r|, i requires 0 <= i < |r| reads r => r[i].locked)
    }

    /** The first m pages of the ring were free and are now locked; the others are as they were. */
    static ghost predicate PrefixLocked(r: seq<Page>, m: nat, was: seq<bool>)
      reads r
    {
      && |was| == |r| && m <= |r|
      && (forall i :: 0 <= i < m ==> !was[i] && r[i].locked)
      && (forall i :: m <= i < |r| ==> r[i].locked == was[i])
    }

    /** Lock both neighbours of a locked page; give up after too many attempts. */
    method LockNeighbours(page: Page, ghost k: nat) returns (ok: bool)
      requires Valid() && k < |pages| && pages[k] == page && page.locked
      modifies this`tries, head`locked, pages`locked
      ensures page.flink in Ring() && page.blink in Ring() && old(tries) <= tries
      ensures !ok ==>
                old(page.flink.locked) || old(page.blink.locked) || MAX_ACCESS_ATTEMPTS <= LostTries(old(tries), tries)
      ensures ok ==> page.flink.locked && page.blink.locked && !old(page.flink.locked) && !old(page.blink.locked)
      ensures forall x :: x in Ring() && !(ok && (x == page.flink || x == page.blink)) ==> x.locked == old(x.locked)
    {
      ghost var r := Ring();
      Pieces(r, k);
      var flink, blink := page.flink, page.blink;
      assert flink in r && blink in r;
      var attempts := 0;
      while attempts < MAX_ACCESS_ATTEMPTS
        invariant forall x :: x in r ==> x.locked == old(x.locked)
        invariant old(tries) <= tries
        invariant attempts <= LostTries(old(tries), tries) || old(flink.locked) || old(blink.locked)
        invariant attempts <= MAX_ACCESS_ATTEMPTS
      {
        attempts := attempts + 1;
        var shared := TryLockShared();
        if !shared { continue; }
        ok := TryLock(flink);
        if !ok { continue; }
        if flink == blink { return true; }
        ok := TryLock(blink);
        if ok { return true; }
        flink.Unlock();
      }
      return false;
    }

    /** remove_page_on_soft_fault, shared path: a locked page leaves the list once both of its
        neighbours, read before the attempts, can be locked. */
    method RemoveOnSoftFault(page: Page, ghost k: nat) returns (done: bool)
      requires Valid() && k < |pages| && pages[k] == page && page.locked
      modifies this`size, this`pages, this`tries, head, pages`flink, pages`blink, pages`locked
      ensures Valid() && old(tries) <= tries
      ensures !done ==>
                || old(Ring()[k].locked) || old(After(Ring(), k + 1).locked)
                || MAX_ACCESS_ATTEMPTS <= LostTries(old(tries), tries)
      ensures done ==> pages == old(pages)[..k] + old(pages)[k + 1..] && size == old(size) - 1
      ensures !done ==> pages == old(pages) && size == old(size)
      ensures forall x :: x in old(Ring()) ==> x.locked == old(x.locked)
    {
      Pieces(Ring(), k);
      done := LockNeighbours(page, k);
      if done {
        Unlink(page, k);
        size := size - 1;
      }
    }

    /** The removal itself, and the release of the neighbours. */
    method Unlink(page: Page, ghost k: nat)
      requires Valid() && k < |pages| && pages[k] == page
      requires page.flink in Ring() && page.blink in Ring() && page.flink.locked && page.blink.locked
      modifies this`pages, head, pages`flink, pages`blink, pages`locked
      ensures Valid() && pages == old(pages)[..k] + old(pages)[k + 1..]
      ensures !old(page.flink).locked && !old(page.blink).locked
      ensures forall x :: x in old(Ring()) && x != old(page.flink) && x != old(page.blink) ==> x.locked == old(x.locked)
    {
      var flink, blink := page.flink, page.blink;
      Remove(page, k);
      UnlockBoth(blink, flink);
    }

    static method UnlockBoth(a: Page, b: Page)
      requires a.locked && b.locked
      modifies a`locked, b`locked
      ensures !a.locked && !b.locked
    {
      a.Unlock();
      if b != a { b.Unlock(); }
    }

    /** The head, or one of the first two pages, is locked. */
    static ghost predicate SomeLocked(was: seq<bool>) {
      exists i :: 0 <= i < 3 && i < |was| && was[i]
    }

    /** Why nothing can be taken from the head of a list. */
    static ghost predicate NoneToTake(was: seq<bool>, losses: nat) {
      SomeLocked(was) || MAX_ACCESS_ATTEMPTS <= losses
    }

    /** Lock the head and the first two pages, or as many as there are; give up after too many attempts. */
    method LockPrefix(ghost was: seq<bool>) returns (m: nat)
      requires Valid() && PrefixLocked(Ring(), 0, was)
      modifies this`tries, head`locked, pages`locked
      ensures old(tries) <= tries
      ensures m == 0 ==> pages == [] || NoneToTake(was, LostTries(old(tries), tries))
      ensures m == 0 || m == 2 || m == 3
      ensures m == 2 ==> |pages| == 1
      ensures PrefixLocked(Ring(), m, was)
    {
      var attempts := 0;
      m := 0;
      while attempts < MAX_ACCESS_ATTEMPTS
        invariant PrefixLocked(Ring(), 0, was) && old(tries) <= tries && attempts <= MAX_ACCESS_ATTEMPTS && m == 0
        invariant attempts <= LostTries(old(tries), tries) || SomeLocked(was)
      {
        attempts := attempts + 1;
        var empty;
        ghost var made := tries;
        m, empty := TryPrefix(was);
        LostTriesAdd(old(tries), made, tries);
        if m != 0 || empty { return; }
      }
    }

    lemma {:induction false} LostTriesAdd(i: nat, j: nat, k: nat)
      requires i <= j <= k
      ensures LostTries(i, k) == LostTries(i, j) + LostTries(j, k)
      decreases k
    {
      if j < k { LostTriesAdd(i, j, k - 1); }
    }

    /** One attempt. It fails only if a lock is taken or a try is lost. */
    method TryPrefix(ghost was: seq<bool>) returns (m: nat, empty: bool)
      requires Valid() && PrefixLocked(Ring(), 0, was)
      modifies this`tries, head`locked, pages`locked
      ensures old(tries) <= tries && (m == 0 || m == 2 || m == 3) && (m == 2 ==> |pages| == 1)
      ensures empty ==> m == 0 && pages == []
      ensures m == 0 && !empty ==> SomeLocked(was) || 1 <= LostTries(old(tries), tries)
      ensures PrefixLocked(Ring(), m, was)
    {
      ghost var r := Ring();
      m, empty := 0, false;
      var shared := TryLockShared();
      if !shared { return; }
      assert r[0] == head;
      var ok := TryLock(head);
      if !ok { return; }
      var first := head.flink;
      if first == head {
        head.Unlock();
        return 0, true;
      }
      assert first == r[1];
      ok := TryLock(first);
      if !ok {
        head.Unlock();
        return;
      }
      var next := first.flink;
      if next == head {
        assert |r| == 2;
        return 2, false;
      }
      assert next == r[2];
      ok := TryLock(next);
      if ok { return 3, false; }
      head.Unlock();
      first.Unlock();
    }

    /** Take the first n pages off the list: two pointer writes. */
    method Cut(next: Page, ghost n: nat)
      requires Valid() && 0 < n <= |pages| && next == After(Ring(), n)
      modifies this`pages, head`flink, next`blink
      ensures Valid() && pages == old(pages)[n..]
      ensures forall i :: 0 < i <= n ==> old(Ring())[i].flink == old(Ring()[i].flink)
    {
      ghost var r := Ring();
      assert r[0] == head;
      head.flink := next;
      next.blink := head;
      pages := pages[n..];
      assert Ring() == [r[0]] + r[n + 1..];
      assert forall i :: 0 < i < |Ring()| ==> Ring()[i] == r[i + n];
    }

    /** Why no more than n pages can be taken: the page that would have to be locked next is locked, or a try
        for it was lost. */
    static ghost predicate MoreIsLocked(was: seq<bool>, n: nat, losses: nat) {
      n + 2 < |was| && (was[n + 2] || 0 < losses)
    }

    /** Lock one page more at a time, until there are enough, one cannot be locked, or the list ends. */
    method ExtendPrefix(capacity: nat, ghost was: seq<bool>) returns (next: Page, n: nat, wrapped: bool)
      requires Valid() && 0 < capacity && 2 <= |pages| && PrefixLocked(Ring(), 3, was)
      modifies this`tries, pages`locked
      ensures 0 < n <= |pages| && n <= capacity && next == After(Ring(), n)
      ensures wrapped == (n == |pages|) && old(tries) <= tries
      ensures n < capacity && n < |pages| ==> MoreIsLocked(was, n, LostTries(old(tries), tries))
      ensures PrefixLocked(Ring(), if wrapped then n + 1 else n + 2, was)
    {
      ghost var r := Ring();
      assert r[0] == head && r[1] == pages[0] && r[2] == pages[1];
      n := 1;
      next := head.flink.flink;
      wrapped := false;
      var ahead := next.flink;
      while n < capacity
        invariant 0 < n <= capacity && n + 1 < |r|
        invariant next == r[n + 1] && ahead == After(r, n + 1)
        invariant PrefixLocked(r, n + 2, was) && old(tries) <= tries
      {
        if ahead == head {
          return head, n + 1, true;
        }
        assert n + 2 < |r|;
        var ok := TryLock(ahead);
        if !ok { break; }
        next := ahead;
        ahead := ahead.flink;
        n := n + 1;
      }
    }

    /** Take the locked pages off the list and release the head and the page after them. */
    method Detach(next: Page, ghost n: nat, wrapped: bool, ghost was: seq<bool>)
      requires Valid() && 0 < n <= |pages| && next == After(Ring(), n) && wrapped == (n == |pages|)
      requires PrefixLocked(Ring(), if wrapped then n + 1 else n + 2, was)
      modifies this`pages, head`flink, head`locked, next`blink, next`locked
      ensures Valid() && pages == old(pages)[n..]
      ensures BatchLocked(old(Ring()), n, was)
    {
      ghost var r := Ring();
      assert r[0] == head && (!wrapped ==> next == r[n + 1]);
      Cut(next, n);
      head.Unlock();
      if !wrapped { next.Unlock(); }
    }

    /** Pages 1 to n of the ring were free, are now locked and linked to each other; the others are as they were. */
    static ghost predicate BatchLocked(r: seq<Page>, n: nat, was: seq<bool>)
      reads r
    {
      && |was| == |r| && n < |r|
      && (forall i :: 0 < i <= n ==> !was[i] && r[i].locked)
      && (forall i :: 0 <= i < |r| && !(0 < i <= n) ==> r[i].locked == was[i])
      && (forall i :: 0 < i < n ==> r[i].flink == r[i + 1])
    }

    /** With the head and the first two pages locked, go on locking, and take what was locked. */
    method TakeLocked(capacity: nat, ghost was: seq<bool>) returns (n: nat)
      requires Valid() && 0 < capacity && 2 <= |pages| && PrefixLocked(Ring(), 3, was)
      modifies this`pages, this`tries, head`flink, head`blink, head`locked, pages`blink, pages`locked
      ensures Valid() && 0 < n <= capacity && n <= |old(pages)| && pages == old(pages)[n..] && old(tries) <= tries
      ensures n < capacity && n < |old(pages)| ==> MoreIsLocked(was, n, LostTries(old(tries), tries))
      ensures BatchLocked(old(Ring()), n, was)
    {
      var next, wrapped;
      next, n, wrapped := ExtendPrefix(capacity, was);
      Detach(next, n, wrapped, was);
    }

    /** The same, with one page or more on the list. */
    method TakeAny(capacity: nat, single: bool, ghost was: seq<bool>) returns (n: nat)
      requires Valid() && 0 < capacity && (if single then |pages| == 1 else 2 <= |pages|)
      requires PrefixLocked(Ring(), if single then 2 else 3, was)
      modifies this`size, this`pages, this`tries, head`flink, head`blink, head`locked, pages`blink, pages`locked
      ensures Valid() && 0 < n <= capacity && n <= |old(pages)| && pages == old(pages)[n..] && old(tries) <= tries
      ensures n < capacity && n < |old(pages)| ==> MoreIsLocked(was, n, LostTries(old(tries), tries))
      ensures size == old(size) - n
      ensures BatchLocked(old(Ring()), n, was)
    {
      if single {
        n := 1;
        size := size - 1;
        Detach(head, n, true, was);
      } else {
        n := TakeLocked(capacity, was);
        size := size - n;
      }
    }

    /** remove_batch_from_list_head, shared path: as many pages from the head as can be locked,
        together with the head and the page after them, up to capacity. */
    method RemoveBatch(capacity: nat) returns (n: nat, first: Page)
      requires Valid() && 0 < capacity
      modifies this`size, this`pages, this`tries, head`flink, head`blink, head`locked, pages`blink, pages`locked
      ensures Valid() && n <= |old(pages)| && n <= capacity && old(tries) <= tries
      ensures n < capacity && n < |old(pages)| ==> Stopped(old(Locks(Ring())), n, LostTries(old(tries), tries))
      ensures LostTries(old(tries), tries) == 0 && NoneLocked(old(Locks(Ring()))) ==>
                n == if capacity < |old(pages)| then capacity else |old(pages)|
      ensures pages == old(pages)[n..] && size == old(size) - n
      ensures 0 < n ==> first == old(Ring())[1]
      ensures BatchLocked(old(Ring()), n, old(Locks(Ring())))
    {
      ghost var was := Locks(Ring());
      assert pages[0..] == pages;
      var m := LockPrefix(was);
      assert Ring()[0] == head;
      n, first := 0, head.flink;
      if m != 0 {
        ghost var made := tries;
        n := TakeAny(capacity, m == 2, was);
        LostTriesAdd(old(tries), made, tries);
      }
    }

    static ghost predicate NoneLocked(was: seq<bool>) {
      forall i :: 0 <= i < |was| ==> !was[i]
    }

    /** Why a removal got only n pages. */
    static ghost predicate Stopped(was: seq<bool>, n: nat, losses: nat) {
      if n == 0 then NoneToTake(was, losses) else MoreIsLocked(was, n, losses)
    }

    /** Lock the head and the last page. */
    method LockEnds() returns (ok: bool, tail: Page)
      requires Valid()
      modifies this`tries, head`locked, pages`locked
      ensures tail == Ring()[|Ring()| - 1] && old(tries) <= tries
      ensures !ok ==> old(head.locked) || old(Ring()[|Ring()| - 1].locked) || 0 < LostTries(old(tries), tries)
      ensures ok ==> head.locked && tail.locked && !old(head.locked) && !old(tail.locked)
      ensures forall x :: x in Ring() && (!ok || (x != head && x != tail)) ==> x.locked == old(x.locked)
    {
      ghost var r := Ring();
      assert r[0] == head;
      tail := head.blink;
      ok := TryLockShared();
      if !ok { return; }
      ok := TryLock(head);
      if !ok { return; }
      tail := head.blink;
      if tail != head {
        ok := TryLock(tail);
        if !ok { head.Unlock(); }
      }
    }

    /** insert_page_to_tail, one attempt. */
    method TryInsert(page: Page) returns (ok: bool)
      requires Valid() && page !in Ring()
      modifies this`pages, this`size, this`tries, head`flink, head`blink, head`locked, pages`flink, pages`locked,
          page`flink, page`blink
      ensures !ok ==> old(head.locked) || old(Ring()[|Ring()| - 1].locked) || 0 < LostTries(old(tries), tries)
      ensures Valid() && pages == (if ok then old(pages) + [page] else old(pages))
      ensures size == old(size) + if ok then 1 else 0
      ensures forall x :: x in Ring() ==> x.locked == old(x.locked)
    {
      var tail;
      ok, tail := LockEnds();
      if ok {
        InsertToTail(page);
        UnlockBoth(head, tail);
        size := size + 1;
      }
    }

    /** try_pop_from_list: the first page, locked, if it, the head and the page after it can be locked. */
    method TryPop() returns (first: Page?)
      requires Valid()
      modifies this`size, this`pages, this`tries, head`flink, head`blink, head`locked, pages`flink, pages`blink,
          pages`locked
      ensures Valid()
      ensures first == null ==> pages == old(pages) && size == old(size)
      ensures first == null ==>
                pages == [] || SomeLocked(old(Locks(Ring()))) || 0 < LostTries(old(tries), tries)
      ensures first != null ==>
                && old(pages) != [] && first == old(pages)[0] && pages == old(pages)[1..] && size == old(size) - 1
                && first.locked && !old(first.locked)
      ensures forall x :: x in old(Ring()) && x != first ==> x.locked == old(x.locked)
      ensures first == null ==> forall x :: x in Ring() ==> x.locked == old(x.locked)
    {
      ghost var r := Ring();
      first := null;
      var page := head.flink;
      if page == head { return; }
      assert r[0] == head;
      assert page == r[1];
      var next := page.flink;
      var ok := LockThree(page, next);
      if !ok { return; }
      Remove(page, 0);
      head.Unlock();
      if next != head { next.Unlock(); }
      size := size - 1;
      first := page;
    }

    method LockThree(page: Page, next: Page) returns (ok: bool)
      requires page != head && page != next
      modifies this`tries, head`locked, page`locked, next`locked
      ensures !ok ==>
                old(head.locked) || old(page.locked) || old(next.locked) || 0 < LostTries(old(tries), tries)
      ensures ok ==> head.locked && page.locked && next.locked
      ensures ok ==> !old(head.locked) && !old(page.locked) && !old(next.locked)
      ensures !ok ==> head.locked == old(head.locked) && page.locked == old(page.locked)
      ensures !ok ==> next.locked == old(next.locked)
    {
      ok := TryLockShared();
      if !ok { return; }
      ok := TryLock(head);
      if !ok { return; }
      ok := TryLock(page);
      if !ok {
        head.Unlock();
        return;
      }
      if next != head {
        ok := TryLock(next);
        if !ok {
          page.Unlock();
          head.Unlock();
        }
      }
    }

    /** insert_list_to_tail_list, one attempt: put a whole temporary list behind the last page, if
        the head and the last page can be locked. The temporary head keeps its own links. */
    method TrySplice(origin: PageList) returns (ok: bool)
      requires Valid() && origin.Valid() && origin.pages != [] && origin != this
      requires Apart(Ring(), origin.Ring())
      modifies this`pages, this`tries, head`blink, head`locked, head`flink, pages`flink, pages`locked,
          origin.pages`flink, origin.pages`blink
      ensures !ok ==> old(head.locked) || old(Ring()[|Ring()| - 1].locked) || 0 < LostTries(old(tries), tries)
      ensures Valid() && pages == if ok then old(pages) + origin.pages else old(pages)
      ensures origin.head.flink == origin.pages[0]
      ensures forall x :: x in Ring() ==> x.locked == old(x.locked)
    {
      ghost var r, b := Ring(), origin.pages;
      assert origin.Ring()[0] == origin.head && origin.Ring()[1] == b[0] && origin.Ring()[|b|] == b[|b| - 1];
      var first, last := origin.head.flink, origin.head.blink;
      var tail;
      ok, tail := LockEnds();
      if !ok { return; }
      assert forall x :: x in b ==> x !in r by {
        forall i, j | 0 <= i < |r| && 0 <= j < |b| ensures r[i] != b[j] { assert origin.Ring()[j + 1] == b[j]; }
      }
      LinkBehind(origin, tail, first, last);
      UnlockBoth(head, tail);
    }

    /** The four pointer writes of the splice. */
    method LinkBehind(origin: PageList, tail: Page, first: Page, last: Page)
      requires Valid() && origin.Valid() && origin.pages != [] && origin != this
      requires Apart(Ring(), origin.Ring())
      requires tail == Ring()[|Ring()| - 1] && first == origin.pages[0] && last == origin.pages[|origin.pages| - 1]
      modifies this`pages, tail`flink, first`blink, last`flink, head`blink
      ensures Valid() && pages == old(pages) + origin.pages && origin.head.flink == first
    {
      ghost var r, b := Ring(), origin.pages;
      assert r[0] == head && origin.Ring()[0] == origin.head && b == origin.Ring()[1..];
      Unring(r);
      Unring(origin.Ring());
      tail.flink := first;
      first.blink := tail;
      last.flink := head;
      head.blink := last;
      assert Segment(r) && Segment(b);
      pages := pages + b;
      assert Ring() == r + b;
      Join(r, b);
    }

    /** No page is in both. */
    static ghost predicate Apart(r: seq<Page>, b: seq<Page>) {
      forall i, j :: 0 <= i < |r| && 0 <= j < |b| ==> r[i] != b[j]
    }

    /** Distinct pages linked to each other, whatever the links at the two ends. */
    static ghost predicate Segment(r: seq<Page>)
      reads r
    {
      && (forall i, j :: 0 <= i < j < |r| ==> r[i] != r[j])
      && (forall i {:trigger r[i].flink} :: 0 <= i < |r| - 1 ==> r[i].flink == r[i + 1])
      && (forall i {:trigger r[i].blink} :: 0 < i < |r| ==> r[i].blink == r[i - 1])
    }

    static lemma Unring(r: seq<Page>)
      requires Linked(r) && 0 < |r|
      ensures Segment(r) && Segment(r[1..])
    {
      assert forall i :: 0 <= i < |r[1..]| ==> r[1..][i] == r[i + 1];
    }

    static lemma Join(r: seq<Page>, b: seq<Page>)
      requires Segment(r) && Segment(b) && Apart(r, b) && 0 < |r| && 0 < |b|
      requires r[|r| - 1].flink == b[0] && b[0].blink == r[|r| - 1]
      requires b[|b| - 1].flink == r[0] && r[0].blink == b[|b| - 1]
      ensures Linked(r + b)
    {
    }

    /** The walk at the end of trim_pages and write_pages: from the temporary head, whose links are
        stale by now, release every page of the batch, reading the next page before each release. */
    static method ReleaseBatch(temp: Page, n: nat, ghost batch: seq<Page>)
      requires n == |batch| && 0 < n && temp.flink == batch[0]
      requires forall i, j :: 0 <= i < j < n ==> batch[i] != batch[j]
      requires forall i :: 0 <= i < n ==> batch[i].locked && batch[i].flink != null
      requires forall i {:trigger batch[i].flink} :: 0 <= i < n - 1 ==> batch[i].flink == batch[i + 1]
      modifies batch`locked
      ensures forall i :: 0 <= i < n ==> !batch[i].locked
    {
      var page: Page? := temp.flink;
      for i := 0 to n
        invariant i < n ==> page == batch[i]
        invariant forall k :: 0 <= k < n ==> batch[k].locked == (i <= k)
      {
        var next := page.flink;
        page.Unlock();
        page := next;
      }
    }
  }
}
