/**
 * The user directory screen (FirstFragment.kt): a list of every other user,
 * rebuilt in place on each snapshot of the users collection and on each
 * pull-to-refresh, and the navigation a tap starts.
 */
module UserDirectory {
  import opened Wrappers
  import opened Records

  /** Someone other than the signed-in user (with nobody signed in, everyone). */
  predicate IsOther(user: User, currentUid: Option<string>) {
    currentUid != Some(user.uid)
  }

  /** The decoded documents that are other users, in document order; a
      document that does not decode (None) is skipped. */
  function Others(documents: seq<Option<User>>, currentUid: Option<string>): (users: seq<User>)
    ensures |users| <= |documents|
  {
    if documents == [] then []
    else
      var last := documents[|documents| - 1];
      Others(documents[..|documents| - 1], currentUid)
        + (if last.Some? && IsOther(last.value, currentUid) then [last.value] else [])
  }

  /** The refresh path's documents always decode. */
  function Decoded(users: seq<User>): (documents: seq<Option<User>>)
    ensures |documents| == |users|
    ensures forall i :: 0 <= i < |users| ==> documents[i] == Some(users[i])
  {
    seq(|users|, i requires 0 <= i < |users| => Some(users[i]))
  }

  /** The list holds exactly the decoded other users. */
  lemma {:induction false} OthersMembership(documents: seq<Option<User>>, currentUid: Option<string>, u: User)
    ensures u in Others(documents, currentUid) <==> Some(u) in documents && IsOther(u, currentUid)
    decreases |documents|
  {
    if documents != [] {
      var front := documents[..|documents| - 1];
      OthersMembership(front, currentUid, u);
      assert documents == front + [documents[|documents| - 1]];
    }
  }

  /** The signed-in user is never listed. */
  lemma OthersExcludeSelf(documents: seq<Option<User>>, uid: string, p: nat)
    requires p < |Others(documents, Some(uid))|
    ensures Others(documents, Some(uid))[p].uid != uid
  {
    OthersMembership(documents, Some(uid), Others(documents, Some(uid))[p]);
  }

  /** Document order is kept: the list of a concatenation is the concatenation of the lists. */
  lemma {:induction false} OthersConcat(a: seq<Option<User>>, b: seq<Option<User>>, currentUid: Option<string>)
    ensures Others(a + b, currentUid) == Others(a, currentUid) + Others(b, currentUid)
    decreases |b|
  {
    if b == [] {
      assert a + b == a;
    } else {
      var b' := b[..|b| - 1];
      assert (a + b)[..|a + b| - 1] == a + b';
      OthersConcat(a, b', currentUid);
    }
  }

  /** Filtering an already built list again changes nothing. */
  lemma {:induction false} OthersIdempotent(documents: seq<Option<User>>, currentUid: Option<string>)
    ensures Others(Decoded(Others(documents, currentUid)), currentUid) == Others(documents, currentUid)
    decreases |documents|
  {
    if documents != [] {
      var front := documents[..|documents| - 1];
      var last := documents[|documents| - 1];
      var tail := if last.Some? && IsOther(last.value, currentUid) then [last.value] else [];
      OthersIdempotent(front, currentUid);
      var built := Others(front, currentUid);
      assert Decoded(built + tail) == Decoded(built) + Decoded(tail);
      OthersConcat(Decoded(built), Decoded(tail), currentUid);
      if tail != [] {
        assert Decoded(tail)[..0] == [];
      }
    }
  }

  /** The arguments of the navigation to the chat screen. */
  function TapArguments(user: User): (arguments: map<string, string>)
    ensures "receiverUid" in arguments && arguments["receiverUid"] == user.uid
    ensures arguments.Keys == {"receiverUid"}
  {
    map["receiverUid" := user.uid]
  }

  /** The screen: the shared list, the refresh indicator and the navigations started. */
  class FirstFragment {
    const currentUid: Option<string>
    var users: seq<User>
    var isRefreshing: bool
    var navigations: seq<map<string, string>>

    constructor (currentUid: Option<string>)
      ensures this.currentUid == currentUid && users == [] && !isRefreshing && navigations == []
    {
      this.currentUid := currentUid;
      users := [];
      isRefreshing := false;
      navigations := [];
    }

    /** The users collection listener: an error or a missing snapshot leaves the
        list alone; a snapshot clears it and adds every decoded other user. */
    method OnUsersSnapshot(failed: bool, snapshot: Option<seq<Option<User>>>)
      modifies this`users
      ensures failed || snapshot.None? ==> users == old(users)
      ensures !failed && snapshot.Some? ==> users == Others(snapshot.value, currentUid)
    {
      if failed {
        return;
      }
      if snapshot.Some? {
        var documents := snapshot.value;
        users := [];
        var i := 0;
        while i < |documents|
          invariant 0 <= i <= |documents|
          invariant users == Others(documents[..i], currentUid)
        {
          assert documents[..i + 1][..i] == documents[..i];
          var user := documents[i];
          if user.Some? && currentUid != Some(user.value.uid) {
            users := users + [user.value];
          }
          i := i + 1;
        }
        assert documents[..i] == documents;
      }
    }

    /** A successful refresh rebuilds the list the same way and stops the indicator. */
    method OnRefreshSucceeded(result: seq<User>)
      modifies this`users, this`isRefreshing
      ensures users == Others(Decoded(result), currentUid)
      ensures !isRefreshing
    {
      users := [];
      var i := 0;
      while i < |result|
        invariant 0 <= i <= |result|
        invariant users == Others(Decoded(result[..i]), currentUid)
      {
        assert Decoded(result[..i + 1])[..i] == Decoded(result[..i]);
        var user := result[i];
        if currentUid != Some(user.uid) {
          users := users + [user];
        }
        i := i + 1;
      }
      assert result[..i] == result;
      isRefreshing := false;
    }

    /** A failed refresh keeps the list and stops the indicator. */
    method OnRefreshFailed()
      modifies this`isRefreshing
      ensures !isRefreshing
    {
      isRefreshing := false;
    }

    /** The adapter's click callback: navigate to the chat with the user's uid. */
    method OnUserClicked(user: User)
      modifies this`navigations
      ensures navigations == old(navigations) + [TapArguments(user)]
    {
      navigations := navigations + [map["receiverUid" := user.uid]];
    }
  }
}
