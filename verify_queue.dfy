/** The administrators' verification queue: who may see it, the pending
    submissions it loads, and approving or rejecting one
    (src/app/admin/verify/page.js). The document store is held as the
    submissions collection and the users collection; each write may fail. */
module VerifyQueue {
  import opened Seqs
  import opened Js
  import opened Auth
  import opened DashboardLayout

  /** A verification submission (its document links aside). */
  datatype Submission = Submission(id: string, uid: string, status: string)

  /** What the page's effect does for a session. */
  datatype Access = Waiting | RedirectHome | FetchQueue

  /** Non-admins, and visitors without a session, are sent home; only an
      administrator's session fetches the queue. */
  function AdminAccess(authLoading: bool, user: Option<AppUser>): (a: Access)
    ensures a == Waiting <==> authLoading
    ensures a == FetchQueue <==> !authLoading && user.Some? && Truthy(user.value.isAdmin)
    ensures a == RedirectHome <==> !authLoading && (user.None? || !Truthy(user.value.isAdmin))
  {
    if authLoading then Waiting
    else if user.None? || !Truthy(user.value.isAdmin) then RedirectHome
    else FetchQueue
  }

  function PendingTest(): Submission -> bool {
    (s: Submission) => s.status == "pending"
  }

  function IdNot(id: string): Submission -> bool {
    (s: Submission) => s.id != id
  }

  /** The query `where("status", "==", "pending")`, in collection order. */
  function Pending(docs: seq<Submission>): (r: seq<Submission>)
    ensures forall s :: s in r <==> s in docs && s.status == "pending"
  {
    Filter(docs, PendingTest())
  }

  /** `prev.filter(sub => sub.id !== submissionId)`. */
  function RemoveById(subs: seq<Submission>, id: string): (r: seq<Submission>)
    ensures forall s :: s in r <==> s in subs && s.id != id
  {
    Filter(subs, IdNot(id))
  }

  /** Whether the collection holds a document with this id. */
  predicate HasDoc(docs: seq<Submission>, id: string) {
    exists k :: 0 <= k < |docs| && docs[k].id == id
  }

  /** `updateDoc(..., { status })` on the document with this id. */
  function SetStatus(docs: seq<Submission>, id: string, status: string): seq<Submission> {
    if docs == [] then []
    else [if docs[0].id == id then docs[0].(status := status) else docs[0]] + SetStatus(docs[1..], id, status)
  }

  /** The status write touches the documents with that id and no other,
      and keeps the collection's order and size. */
  lemma {:induction false} SetStatusSpec(docs: seq<Submission>, id: string, status: string)
    ensures |SetStatus(docs, id, status)| == |docs|
    ensures forall k :: 0 <= k < |docs| ==>
      SetStatus(docs, id, status)[k] == if docs[k].id == id then docs[k].(status := status) else docs[k]
  {
    if docs != [] {
      SetStatusSpec(docs[1..], id, status);
      var r := SetStatus(docs, id, status);
      forall k | 0 < k < |docs|
        ensures r[k] == if docs[k].id == id then docs[k].(status := status) else docs[k]
      {
        assert r[k] == SetStatus(docs[1..], id, status)[k - 1];
        assert docs[1..][k - 1] == docs[k];
      }
    }
  }

  /** Deciding a submission (any status other than 'pending') takes exactly
      it out of the pending query: the local removal keeps the list equal to
      what a fresh query would return. */
  lemma {:induction false} DecisionLeavesQueue(docs: seq<Submission>, id: string, status: string)
    requires status != "pending"
    ensures Pending(SetStatus(docs, id, status)) == RemoveById(Pending(docs), id)
  {
    if docs != [] {
      DecisionLeavesQueue(docs[1..], id, status);
      var head := if docs[0].id == id then docs[0].(status := status) else docs[0];
      assert SetStatus(docs, id, status) == [head] + SetStatus(docs[1..], id, status);
      assert Pending(SetStatus(docs, id, status)) ==
        Filter([head], PendingTest()) + Pending(SetStatus(docs[1..], id, status)) by {
        FilterConcat([head], SetStatus(docs[1..], id, status), PendingTest());
      }
      assert Pending(docs) == Filter([docs[0]], PendingTest()) + Pending(docs[1..]) by {
        assert docs == [docs[0]] + docs[1..];
        FilterConcat([docs[0]], docs[1..], PendingTest());
      }
      FilterConcat(Filter([docs[0]], PendingTest()), Pending(docs[1..]), IdNot(id));
    }
  }

  /** With distinct ids, removing the entry at `k` by its id takes out that
      entry only, and the others keep their order; an id not in the list
      removes nothing. */
  lemma RemoveByIdSpec(subs: seq<Submission>, id: string)
    requires forall i, j :: 0 <= i < j < |subs| ==> subs[i].id != subs[j].id
    ensures forall k :: 0 <= k < |subs| && subs[k].id == id ==> RemoveById(subs, id) == subs[..k] + subs[k + 1..]
    ensures (forall k :: 0 <= k < |subs| ==> subs[k].id != id) ==> RemoveById(subs, id) == subs
  {
    forall k | 0 <= k < |subs| && subs[k].id == id
      ensures RemoveById(subs, id) == subs[..k] + subs[k + 1..]
    {
      FilterRemovesOne(subs, IdNot(id), k);
    }
    if forall k :: 0 <= k < |subs| ==> subs[k].id != id {
      FilterAll(subs, IdNot(id));
    }
  }

  /** The profile fields an approval writes. */
  function Promote(p: ProfileDoc): (q: ProfileDoc)
    ensures q.role == Str("artisan") && q.isVerifiedArtisan == Bool(true) && q.isAdmin == p.isAdmin
  {
    p.(role := Str("artisan"), isVerifiedArtisan := Bool(true))
  }

  class QueuePage {
    /** The submissions collection. */
    var collection: seq<Submission>
    /** The users collection's profiles, by uid. */
    var users: map<string, ProfileDoc>
    /** The list shown. */
    var submissions: seq<Submission>
    var loading: bool
    var actionLoading: Option<string>

    constructor (collection: seq<Submission>, users: map<string, ProfileDoc>)
      ensures this.collection == collection && this.users == users
      ensures submissions == [] && loading && actionLoading.None?
    {
      this.collection := collection;
      this.users := users;
      submissions := [];
      loading := true;
      actionLoading := None;
    }

    /** `fetchSubmissions`: the pending query's answer when it succeeds;
        loading ends either way. */
    method FetchSubmissions(ok: bool)
      modifies this`submissions, this`loading
      ensures ok ==> submissions == Pending(collection)
      ensures !ok ==> submissions == old(submissions)
      ensures !loading
    {
      if ok {
        submissions := Pending(collection);
      }
      loading := false;
    }

    /** `handleApprove`: promote the user, then mark the submission
        approved, then drop it from the list. A write fails when its
        document is missing or the store refuses it (`userWriteOk`,
        `statusWriteOk`); a failed first write stops everything, a failed
        second one leaves the promotion in place. */
    method Approve(id: string, uid: string, userWriteOk: bool, statusWriteOk: bool)
      modifies this`users, this`collection, this`submissions, this`actionLoading
      ensures var promoted := userWriteOk && uid in old(users);
        && (promoted ==> users == old(users)[uid := Promote(old(users)[uid])])
        && (!promoted ==> users == old(users))
        && (promoted && statusWriteOk && HasDoc(old(collection), id) ==>
              collection == SetStatus(old(collection), id, "approved")
              && submissions == RemoveById(old(submissions), id))
        && (!(promoted && statusWriteOk && HasDoc(old(collection), id)) ==>
              collection == old(collection) && submissions == old(submissions))
      ensures old(submissions) == Pending(old(collection)) ==> submissions == Pending(collection)
      ensures actionLoading.None?
    {
      actionLoading := Some(id);
      if userWriteOk && uid in users {
        users := users[uid := Promote(users[uid])];
        if statusWriteOk && HasDoc(collection, id) {
          DecisionLeavesQueue(collection, id, "approved");
          collection := SetStatus(collection, id, "approved");
          submissions := RemoveById(submissions, id);
        }
      }
      actionLoading := None;
    }

    /** `handleReject`: mark the submission rejected and drop it from the
        list; no profile is touched. */
    method Reject(id: string, writeOk: bool)
      modifies this`collection, this`submissions, this`actionLoading
      ensures writeOk && HasDoc(old(collection), id) ==>
        collection == SetStatus(old(collection), id, "rejected") && submissions == RemoveById(old(submissions), id)
      ensures !(writeOk && HasDoc(old(collection), id)) ==>
        collection == old(collection) && submissions == old(submissions)
      ensures old(submissions) == Pending(old(collection)) ==> submissions == Pending(collection)
      ensures users == old(users)
      ensures actionLoading.None?
    {
      actionLoading := Some(id);
      if writeOk && HasDoc(collection, id) {
        DecisionLeavesQueue(collection, id, "rejected");
        collection := SetStatus(collection, id, "rejected");
        submissions := RemoveById(submissions, id);
      }
      actionLoading := None;
    }
  }

  /** An approved applicant's next session passes the dashboard guard. */
  lemma ApprovedUserIsArtisan(account: Account, p: ProfileDoc)
    ensures RendersDashboard(false, Some(DeriveUser(account, Exists(Promote(p)))))
    ensures DashboardRedirect(false, Some(DeriveUser(account, Exists(Promote(p))))).None?
  {
  }
}
