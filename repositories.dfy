/** The JPA repositories as tables held in memory. Rows are never deleted by
    the services modelled here, and an identity column numbers them 1, 2, 3, ...,
    so the row with id `k` sits at index `k - 1`. */
module Repositories {
  import opened Wrappers
  import opened Entities
  import Strings

  /** The elements of `s` that satisfy `p`, in their order. */
  function Filter<T>(s: seq<T>, p: T -> bool): (r: seq<T>)
    ensures |r| <= |s|
    ensures forall k :: 0 <= k < |r| ==> r[k] in s && p(r[k])
    ensures forall k :: 0 <= k < |s| && p(s[k]) ==> s[k] in r
  {
    if s == [] then []
    else
      var rest := Filter(s[1..], p);
      assert forall k :: 1 <= k < |s| ==> s[k] == s[1..][k - 1];
      (if p(s[0]) then [s[0]] else []) + rest
  }

  function Reverse<T>(s: seq<T>): (r: seq<T>)
    ensures |r| == |s| && forall i :: 0 <= i < |s| ==> r[i] == s[|s| - 1 - i]
  {
    seq(|s|, i requires 0 <= i < |s| => s[|s| - 1 - i])
  }

  predicate Increasing<T>(s: seq<T>, key: T -> int) {
    forall i, j :: 0 <= i < j < |s| ==> key(s[i]) < key(s[j])
  }

  predicate Decreasing<T>(s: seq<T>, key: T -> int) {
    forall i, j :: 0 <= i < j < |s| ==> key(s[i]) > key(s[j])
  }

  lemma ConsIncreasing<T>(x: T, rest: seq<T>, key: T -> int)
    requires Increasing(rest, key)
    requires forall j :: 0 <= j < |rest| ==> key(x) < key(rest[j])
    ensures Increasing([x] + rest, key)
  {
    var s := [x] + rest;
    forall i, j | 0 <= i < j < |s| ensures key(s[i]) < key(s[j]) {
      assert s[j] == rest[j - 1];
      if i > 0 {
        assert s[i] == rest[i - 1];
      }
    }
  }

  lemma {:induction false} FilterKeepsIncreasing<T>(s: seq<T>, p: T -> bool, key: T -> int)
    requires Increasing(s, key)
    ensures Increasing(Filter(s, p), key)
  {
    if s != [] {
      var tail := s[1..];
      assert Increasing(tail, key) by {
        forall i, j | 0 <= i < j < |tail| ensures key(tail[i]) < key(tail[j]) {
          assert tail[i] == s[i + 1] && tail[j] == s[j + 1];
        }
      }
      FilterKeepsIncreasing(tail, p, key);
      var rest := Filter(tail, p);
      forall j | 0 <= j < |rest| ensures key(s[0]) < key(rest[j]) {
        assert rest[j] in tail;
        var k :| 0 <= k < |tail| && tail[k] == rest[j];
        assert s[k + 1] == rest[j];
      }
      if p(s[0]) {
        ConsIncreasing(s[0], rest, key);
      } else {
        assert Filter(s, p) == rest;
      }
    }
  }

  /** Newest first: the rows that satisfy `p`, highest id first. */
  function NewestFirst<T>(s: seq<T>, p: T -> bool): seq<T> {
    Reverse(Filter(s, p))
  }

  /** Newest first keeps exactly the rows that satisfy `p`. */
  lemma NewestFirstMembers<T>(s: seq<T>, p: T -> bool)
    ensures forall k :: 0 <= k < |NewestFirst(s, p)| ==> NewestFirst(s, p)[k] in s && p(NewestFirst(s, p)[k])
    ensures forall k :: 0 <= k < |s| && p(s[k]) ==> s[k] in NewestFirst(s, p)
  {
    var f := Filter(s, p);
    var r := NewestFirst(s, p);
    forall k | 0 <= k < |r| ensures r[k] in s && p(r[k]) {
      assert r[k] == f[|f| - 1 - k];
    }
    forall k | 0 <= k < |s| && p(s[k]) ensures s[k] in r {
      var q :| 0 <= q < |f| && f[q] == s[k];
      assert r[|f| - 1 - q] == s[k];
    }
  }

  lemma NewestFirstShape<T>(s: seq<T>, p: T -> bool, key: T -> int)
    requires Increasing(s, key)
    ensures var r := NewestFirst(s, p);
            Decreasing(r, key)
            && (forall k :: 0 <= k < |r| ==> r[k] in s && p(r[k]))
            && (forall k :: 0 <= k < |s| && p(s[k]) ==> s[k] in r)
  {
    FilterKeepsIncreasing(s, p, key);
    NewestFirstMembers(s, p);
  }

  // ------------------------------------------------------------ users

  predicate UserIds(rows: seq<User>) {
    forall i :: 0 <= i < |rows| ==> rows[i].id == i + 1
  }

  /** `findById`. */
  function UserById(rows: seq<User>, id: int): (r: Option<User>)
    requires UserIds(rows)
    ensures r.Some? <==> exists i :: 0 <= i < |rows| && rows[i].id == id
    ensures r.Some? ==> r.value in rows && r.value.id == id
  {
    if 1 <= id <= |rows| then Some(rows[id - 1]) else None
  }

  /** `findByEmail`: the first user with that e-mail. */
  function UserByEmail(rows: seq<User>, email: string): (r: Option<User>)
    ensures r.Some? <==> exists i :: 0 <= i < |rows| && rows[i].email == email
    ensures r.Some? ==> r.value in rows && r.value.email == email
  {
    if rows == [] then None
    else if rows[0].email == email then Some(rows[0])
    else
      var rest := UserByEmail(rows[1..], email);
      assert forall i :: 1 <= i < |rows| ==> rows[i] == rows[1..][i - 1];
      rest
  }

  /** `existsByEmail`. */
  predicate EmailTaken(rows: seq<User>, email: string) {
    exists i :: 0 <= i < |rows| && rows[i].email == email
  }

  class UserRepository {
    var rows: seq<User>

    constructor ()
      ensures rows == []
    {
      rows := [];
    }

    /** `save` of a new user: the identity column gives it the next id. */
    method Insert(u: User) returns (saved: User)
      requires UserIds(rows)
      modifies this
      ensures saved == u.(id := |old(rows)| + 1)
      ensures rows == old(rows) + [saved] && UserIds(rows)
    {
      saved := u.(id := |rows| + 1);
      rows := rows + [saved];
    }
  }

  // ------------------------------------------------------------ resumes

  predicate ResumeIds(rows: seq<Resume>) {
    forall i :: 0 <= i < |rows| ==> rows[i].id == i + 1
  }

  /** `findById`. */
  function ResumeById(rows: seq<Resume>, id: int): (r: Option<Resume>)
    requires ResumeIds(rows)
    ensures r.Some? <==> exists i :: 0 <= i < |rows| && rows[i].id == id
    ensures r.Some? ==> r.value in rows && r.value.id == id
  {
    if 1 <= id <= |rows| then Some(rows[id - 1]) else None
  }

  /** `findByIdAndUserId`: the resume with that id, if that user owns it. */
  function OwnedResume(rows: seq<Resume>, id: int, userId: int): (r: Option<Resume>)
    requires ResumeIds(rows)
    ensures r.Some? <==> exists i :: 0 <= i < |rows| && rows[i].id == id && rows[i].userId == userId
    ensures r.Some? ==> r.value in rows && r.value.id == id && r.value.userId == userId
  {
    match ResumeById(rows, id)
    case Some(r) => if r.userId == userId then Some(r) else None
    case None => None
  }

  lemma ResumeIdsIncrease(rows: seq<Resume>)
    requires ResumeIds(rows)
    ensures Increasing(rows, (r: Resume) => r.id)
  {
  }

  class ResumeRepository {
    var rows: seq<Resume>

    constructor ()
      ensures rows == []
    {
      rows := [];
    }

    /** `save` of a new row. */
    method Insert(r: Resume) returns (saved: Resume)
      requires ResumeIds(rows)
      modifies this
      ensures saved == r.(id := |old(rows)| + 1)
      ensures rows == old(rows) + [saved] && ResumeIds(rows)
    {
      saved := r.(id := |rows| + 1);
      rows := rows + [saved];
    }

    /** `save` of a row that already exists. */
    method Update(r: Resume)
      requires ResumeIds(rows) && 1 <= r.id <= |rows|
      modifies this
      ensures rows == old(rows)[r.id - 1 := r] && ResumeIds(rows)
    {
      rows := rows[r.id - 1 := r];
    }
  }

  // ------------------------------------------------------------ enhanced resumes

  predicate EnhancedIds(rows: seq<EnhancedResume>) {
    forall i :: 0 <= i < |rows| ==> rows[i].id == i + 1
  }

  /** `findByResumeIdOrderByCreatedAtDesc`. */
  function VersionsOf(rows: seq<EnhancedResume>, resumeId: int): seq<EnhancedResume> {
    NewestFirst(rows, (e: EnhancedResume) => e.resumeId == resumeId)
  }

  lemma VersionsOfShape(rows: seq<EnhancedResume>, resumeId: int)
    requires EnhancedIds(rows)
    ensures var r := VersionsOf(rows, resumeId);
            Decreasing(r, (e: EnhancedResume) => e.id)
            && (forall k :: 0 <= k < |r| ==> r[k] in rows && r[k].resumeId == resumeId)
            && (forall k :: 0 <= k < |rows| && rows[k].resumeId == resumeId ==> rows[k] in r)
  {
    assert Increasing(rows, (e: EnhancedResume) => e.id);
    NewestFirstShape(rows, (e: EnhancedResume) => e.resumeId == resumeId, (e: EnhancedResume) => e.id);
  }

  lemma {:induction false} FilterAppendOne<T>(s: seq<T>, x: T, p: T -> bool)
    ensures Filter(s + [x], p) == Filter(s, p) + (if p(x) then [x] else [])
  {
    if s == [] {
      assert s + [x] == [x];
      assert [x][1..] == [];
    } else {
      var t := s + [x];
      assert t[0] == s[0] && t[1..] == s[1..] + [x];
      FilterAppendOne(s[1..], x, p);
      var head: seq<T> := if p(s[0]) then [s[0]] else [];
      Strings.AppendAssoc(head, Filter(s[1..], p), if p(x) then [x] else []);
    }
  }

  lemma ReverseAppendOne<T>(s: seq<T>, x: T)
    ensures Reverse(s + [x]) == [x] + Reverse(s)
  {
    var l, r := Reverse(s + [x]), [x] + Reverse(s);
    assert |l| == |r|;
    forall i | 0 <= i < |l| ensures l[i] == r[i] {
      if i > 0 {
        assert r[i] == Reverse(s)[i - 1];
      }
    }
  }

  /** A version saved for a resume becomes the first of that resume's
      versions; the versions of every other resume stay as they were. */
  lemma VersionsAfterInsert(rows: seq<EnhancedResume>, e: EnhancedResume, resumeId: int)
    ensures VersionsOf(rows + [e], resumeId) == if e.resumeId == resumeId then [e] + VersionsOf(rows, resumeId) else VersionsOf(rows, resumeId)
  {
    var p := (x: EnhancedResume) => x.resumeId == resumeId;
    FilterAppendOne(rows, e, p);
    if p(e) {
      ReverseAppendOne(Filter(rows, p), e);
    } else {
      assert Filter(rows, p) + [] == Filter(rows, p);
    }
  }

  /** `findByIdAndResumeUserId`: the version with that id whose resume the user owns. */
  function OwnedVersion(rows: seq<EnhancedResume>, resumes: seq<Resume>, id: int, userId: int): (r: Option<EnhancedResume>)
    requires EnhancedIds(rows) && ResumeIds(resumes)
    ensures r.Some? <==> exists i :: 0 <= i < |rows| && rows[i].id == id && OwnedResume(resumes, rows[i].resumeId, userId).Some?
    ensures r.Some? ==> r.value in rows && r.value.id == id
  {
    if 1 <= id <= |rows| && OwnedResume(resumes, rows[id - 1].resumeId, userId).Some? then Some(rows[id - 1]) else None
  }

  class EnhancedResumeRepository {
    var rows: seq<EnhancedResume>

    constructor ()
      ensures rows == []
    {
      rows := [];
    }

    method Insert(e: EnhancedResume) returns (saved: EnhancedResume)
      requires EnhancedIds(rows)
      modifies this
      ensures saved == e.(id := |old(rows)| + 1)
      ensures rows == old(rows) + [saved] && EnhancedIds(rows)
    {
      saved := e.(id := |rows| + 1);
      rows := rows + [saved];
    }
  }
}
