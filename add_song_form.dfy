/** The form for pinning one or two songs (src/components/AddSongForm.tsx):
    the list of entries and how it is edited, when the form may be sent, the
    request body it sends and how it takes the server's reply. The request
    itself is a parameter: the reply, or a thrown fetch or parse. */
module AddSongForm {
  import opened Wrappers
  import opened Text
  import opened Types
  import SongsRoute

  /** One entry of the form: the catalog hit chosen, if any, and the reason. */
  datatype SongEntry = SongEntry(selected: Option<SearchResult>, reason: string)

  /** The component state: `songs`, `yourName`, `submitting` and `error`. */
  datatype Form = Form(entries: seq<SongEntry>, yourName: string, submitting: bool, error: string)

  const BlankEntry: SongEntry := SongEntry(None, "")

  /** The form as it opens: one blank entry, no name, no error. */
  const Initial: Form := Form([BlankEntry], "", false, "")

  const SomethingWrong: string := "Something went wrong"
  const NetworkError: string := "Network error. Please try again."

  /** The form never shows fewer than one or more than two entries. */
  predicate EntryCountOk(f: Form) {
    1 <= |f.entries| <= SongsRoute.Quota
  }

  // ---------------------------------------------------------------------
  // Editing

  /** The field `updateSong` writes, with its new value. */
  datatype Field = Selected(result: Option<SearchResult>) | Reason(text: string)

  /** `updateSong(idx, field, value)`: only that field of entry `idx` changes. */
  function UpdateSong(f: Form, idx: nat, field: Field): (r: Form)
    requires idx < |f.entries|
    ensures |r.entries| == |f.entries|
    ensures forall i :: 0 <= i < |f.entries| && i != idx ==> r.entries[i] == f.entries[i]
    ensures field.Selected? ==>
      r.entries[idx].selected == field.result && r.entries[idx].reason == f.entries[idx].reason
    ensures field.Reason? ==>
      r.entries[idx].reason == field.text && r.entries[idx].selected == f.entries[idx].selected
    ensures r.yourName == f.yourName && r.submitting == f.submitting && r.error == f.error
  {
    var e := f.entries[idx];
    var e' := match field
      case Selected(result) => e.(selected := result)
      case Reason(text) => e.(reason := text);
    f.(entries := f.entries[idx := e'])
  }

  /** The remove button is shown only when there is more than one entry. */
  predicate CanRemove(f: Form) {
    |f.entries| > 1
  }

  /** The entries at every index but `idx`, in order (`filter((_, i) => i !== idx)`). */
  function Without(entries: seq<SongEntry>, idx: nat): (r: seq<SongEntry>)
    requires idx < |entries|
    ensures |r| == |entries| - 1
    ensures r == entries[..idx] + entries[idx + 1..]
  {
    if idx == 0 then entries[1..]
    else [entries[0]] + Without(entries[1..], idx - 1)
  }

  /** Removing entry `idx`. */
  function RemoveEntry(f: Form, idx: nat): (r: Form)
    requires idx < |f.entries|
    ensures r.entries == f.entries[..idx] + f.entries[idx + 1..]
    ensures r.(entries := f.entries) == f
  {
    f.(entries := Without(f.entries, idx))
  }

  /** The add button is shown only while there are fewer than two entries. */
  predicate CanAdd(f: Form) {
    |f.entries| < SongsRoute.Quota
  }

  /** Appending a blank entry. */
  function AddEntry(f: Form): (r: Form)
    ensures |r.entries| == |f.entries| + 1
    ensures r.entries[..|f.entries|] == f.entries && r.entries[|f.entries|] == BlankEntry
    ensures r.(entries := f.entries) == f
  {
    f.(entries := f.entries + [BlankEntry])
  }

  /** What a visitor can do to the list: edit an entry, add one, remove one. */
  datatype Action = Edit(idx: nat, field: Field) | Add | Remove(idx: nat) | Rename(name: string)

  /** One action, applied only when the form offers its control; a control
      that is not on screen does nothing. */
  function Step(f: Form, a: Action): Form {
    match a
    case Edit(idx, field) => if idx < |f.entries| then UpdateSong(f, idx, field) else f
    case Add => if CanAdd(f) then AddEntry(f) else f
    case Remove(idx) => if CanRemove(f) && idx < |f.entries| then RemoveEntry(f, idx) else f
    case Rename(name) => f.(yourName := name)
  }

  /** The actions one after another. */
  function Run(f: Form, actions: seq<Action>): Form
    decreases |actions|
  {
    if actions == [] then f else Run(Step(f, actions[0]), actions[1..])
  }

  /** Every offered action keeps one or two entries. */
  lemma StepKeepsCount(f: Form, a: Action)
    requires EntryCountOk(f)
    ensures EntryCountOk(Step(f, a))
  {
  }

  /** However the form is edited from the start, it has one or two entries. */
  lemma {:induction false} RunKeepsCount(f: Form, actions: seq<Action>)
    requires EntryCountOk(f)
    ensures EntryCountOk(Run(f, actions))
    decreases |actions|
  {
    if actions != [] {
      StepKeepsCount(f, actions[0]);
      RunKeepsCount(Step(f, actions[0]), actions[1..]);
    }
  }

  lemma InitialCountOk()
    ensures EntryCountOk(Initial) && Initial.entries[0] == BlankEntry
  {
  }

  // ---------------------------------------------------------------------
  // Submitting

  /** An entry is complete: a song chosen and a reason that is not blank. */
  predicate Complete(e: SongEntry) {
    e.selected.Some? && Trim(e.reason) != []
  }

  /** `canSubmit`: a name that is not blank, every entry complete, and no
      request already under way. */
  predicate CanSubmit(f: Form) {
    Trim(f.yourName) != [] && (forall i :: 0 <= i < |f.entries| ==> Complete(f.entries[i])) && !f.submitting
  }

  /** The request entry for a form entry: its catalog id and trimmed reason,
      and no colours. */
  function RequestEntry(e: SongEntry): (r: Entry)
    requires e.selected.Some?
    ensures r.spotifyId == Some(e.selected.value.spotifyId) && r.reason == Some(Trim(e.reason))
    ensures r.color.None? && r.bgTint.None?
  {
    Entry(Some(e.selected.value.spotifyId), Some(Trim(e.reason)), None, None)
  }

  /** The JSON body sent: the trimmed name and one request entry per form entry, in order. */
  function RequestBody(f: Form): (body: PostBody)
    requires forall i :: 0 <= i < |f.entries| ==> f.entries[i].selected.Some?
    ensures body.name == Some(Trim(f.yourName))
    ensures body.songs.Some? && |body.songs.value| == |f.entries|
    ensures forall i :: 0 <= i < |f.entries| ==> body.songs.value[i] == RequestEntry(f.entries[i])
  {
    PostBody(Some(Trim(f.yourName)),
             Some(seq(|f.entries|, i requires 0 <= i < |f.entries| => RequestEntry(f.entries[i]))))
  }

  /** What `handleSubmit` did: the new form, the body it sent (`None` when it
      returned at once) and the songs handed to `onAdd`, if any. */
  datatype SubmitOutcome = SubmitOutcome(form: Form, request: Option<PostBody>, added: Option<seq<Song>>)

  /** `handleSubmit()`. On a 2xx reply the songs go to `onAdd` and the form
      stays in its submitting state; on another status its `error` (or a
      generic message) is shown; on a thrown request the network message is. */
  function HandleSubmit(f: Form, reply: SubmitReply): (o: SubmitOutcome)
    ensures !CanSubmit(f) ==> o == SubmitOutcome(f, None, None)
    ensures CanSubmit(f) ==> o.request == Some(RequestBody(f))
    ensures o.form.entries == f.entries && o.form.yourName == f.yourName
    ensures o.added.Some? <==> CanSubmit(f) && reply.Created?
    ensures o.added.Some? ==> o.added.value == reply.songs && o.form.submitting && o.form.error == ""
    ensures CanSubmit(f) && reply.Rejected? ==>
      !o.form.submitting && o.form.error == reply.error.GetOr(SomethingWrong)
    ensures CanSubmit(f) && reply.Threw? ==> !o.form.submitting && o.form.error == NetworkError
  {
    if !CanSubmit(f) then SubmitOutcome(f, None, None)
    else
      var sending := f.(submitting := true, error := "");
      var body := RequestBody(f);
      match reply
      case Created(songs) => SubmitOutcome(sending, Some(body), Some(songs))
      case Rejected(error) => SubmitOutcome(sending.(error := error.GetOr(SomethingWrong), submitting := false), Some(body), None)
      case Threw => SubmitOutcome(sending.(error := NetworkError, submitting := false), Some(body), None)
  }

  /** The request-level checks of the server accept what a submittable form
      of one or two entries sends, once the trimmed name is at most 50
      code units (the name field has no length limit of its own). */
  lemma SubmittableRequestValid(f: Form)
    requires CanSubmit(f) && EntryCountOk(f)
    requires JsLength(Trim(f.yourName)) <= 50
    ensures SongsRoute.ValidRequest(RequestBody(f))
  {
    TrimIdempotent(f.yourName);
  }

  /** Each entry of a submittable form passes the server's entry checks when
      its catalog id is well formed and its reason is at most 80 code units
      (the reason field's own limit); the stored reason is then the trimmed one. */
  lemma SubmittableEntryValid(f: Form, i: nat)
    requires CanSubmit(f) && i < |f.entries|
    requires SongsRoute.IsSpotifyId(f.entries[i].selected.value.spotifyId)
    requires JsLength(f.entries[i].reason) <= 80
    ensures SongsRoute.EntryError(RequestBody(f).songs.value[i]).None?
  {
    var e := f.entries[i];
    TrimShortens(e.reason);
    TrimIdempotent(e.reason);
  }

  /** The server's checks never see a blank name from this form: a form whose
      name trims to nothing cannot be sent. */
  lemma BlankNameNotSent(f: Form, reply: SubmitReply)
    requires AllSpace(f.yourName)
    ensures HandleSubmit(f, reply).request.None?
  {
  }
}
