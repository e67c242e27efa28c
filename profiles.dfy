/** The `users/{uid}` profile documents, as an in-memory table. Written by
    the session manager (src/hooks/use-auth.tsx) and by the steps card
    (src/components/dashboard/steps-card.tsx). */
module Profiles {
  import opened Wrappers

  type Uid = string

  /** A signed-in identity as the identity provider reports it. */
  datatype User = User(uid: Uid, email: Option<string>, displayName: Option<string>, photoURL: Option<string>)

  /** A profile document; every field may be absent, since a merge write of
      the steps card can create a document holding only `stepGoal`. */
  datatype ProfileDoc = ProfileDoc(
    uid: Option<Uid>,
    email: Option<string>,
    displayName: Option<string>,
    photoURL: Option<string>,
    createdAt: Option<int>,
    stepGoal: Option<int>)

  /** The step goal a new profile starts with. */
  const ProvisionedStepGoal: int := 8000

  const EmptyDoc: ProfileDoc := ProfileDoc(None, None, None, None, None, None)

  /** The document `handleUserCredential` writes for a first sign-in. */
  function NewProfile(u: User, now: int): (d: ProfileDoc)
    ensures d.stepGoal == Some(ProvisionedStepGoal) && d.uid == Some(u.uid)
    ensures d.email == u.email && d.displayName == u.displayName && d.photoURL == u.photoURL
    ensures d.createdAt == Some(now)
  {
    ProfileDoc(Some(u.uid), u.email, u.displayName, u.photoURL, Some(now), Some(ProvisionedStepGoal))
  }

  /** `setDoc(ref, { stepGoal }, { merge: true })`: sets that one field,
      creating the document if needed. */
  function MergeStepGoal(doc: Option<ProfileDoc>, goal: int): (d: ProfileDoc)
    ensures d.stepGoal == Some(goal)
    ensures doc.Some? ==> d == doc.value.(stepGoal := Some(goal))
    ensures doc.None? ==> d == EmptyDoc.(stepGoal := Some(goal))
  {
    match doc
    case Some(p) => p.(stepGoal := Some(goal))
    case None => EmptyDoc.(stepGoal := Some(goal))
  }

  class ProfileTable {
    var docs: map<Uid, ProfileDoc>

    constructor ()
      ensures docs == map[]
    {
      docs := map[];
    }

    function Get(uid: Uid): (d: Option<ProfileDoc>)
      reads this
      ensures d.Some? <==> uid in docs
      ensures d.Some? ==> d.value == docs[uid]
    {
      if uid in docs then Some(docs[uid]) else None
    }

    /** `handleUserCredential`: writes a profile only when none exists. */
    method Provision(u: User, now: int)
      modifies this
      ensures u.uid in old(docs) ==> docs == old(docs)
      ensures u.uid !in old(docs) ==> docs == old(docs)[u.uid := NewProfile(u, now)]
    {
      var existing := Get(u.uid);
      if existing.None? {
        docs := docs[u.uid := NewProfile(u, now)];
      }
    }

    method WriteStepGoal(uid: Uid, goal: int)
      modifies this
      ensures docs == old(docs)[uid := MergeStepGoal(old(Get(uid)), goal)]
    {
      var existing := Get(uid);
      docs := docs[uid := MergeStepGoal(existing, goal)];
    }
  }
}
