/** The post editor of `CreatePost.jsx`: the `formData` record, the handlers
    that edit it, the image upload, and the update-or-insert submit. */
module PostForm {
  import opened Wrappers
  import opened Schema
  import opened Text

  datatype Form = Form(
    title: string,
    description: string,
    downloadUrl: string,
    category: string,
    versionCompatibility: seq<string>,
    isPremium: bool,
    adLink: string,
    keywords: seq<string>,
    images: seq<string>)

  const DefaultVersions: seq<string> := ["1.20.1"]

  /** The form as the page opens it, for a new post and for an edit alike. */
  function InitialForm(): (f: Form)
    ensures f.category == Mods.Key() && !f.isPremium
    ensures f.keywords == [] && f.images == []
    ensures f.title == "" && f.description == "" && f.downloadUrl == "" && f.adLink == ""
    ensures f.versionCompatibility == DefaultVersions
  {
    Form("", "", "", Mods.Key(), DefaultVersions, false, "", [], [])
  }

  /** JavaScript's `list.splice(idx, 1)` on a copy: a negative index counts
      from the end, an index past the end removes nothing. */
  function Splice1<T>(s: seq<T>, idx: int): (r: seq<T>)
    ensures 0 <= idx < |s| ==> r == s[..idx] + s[idx + 1..]
    ensures -|s| <= idx < 0 ==> r == s[..|s| + idx] + s[|s| + idx + 1..]
    ensures idx < -|s| ==> r == if s == [] then [] else s[1..]
    ensures idx >= |s| ==> r == s
    ensures multiset(r) <= multiset(s)
  {
    var start := if idx < 0 then (if |s| + idx < 0 then 0 else |s| + idx) else (if idx < |s| then idx else |s|);
    if start < |s| then
      assert s == s[..start] + [s[start]] + s[start + 1..];
      s[..start] + s[start + 1..]
    else s
  }

  /** Removing the element at a valid index shortens the list by one and keeps
      every other element, in order. */
  lemma Splice1RemovesOne<T>(s: seq<T>, idx: int)
    requires 0 <= idx < |s|
    ensures |Splice1(s, idx)| == |s| - 1
    ensures forall k :: 0 <= k < idx ==> Splice1(s, idx)[k] == s[k]
    ensures forall k :: idx <= k < |s| - 1 ==> Splice1(s, idx)[k] == s[k + 1]
    ensures multiset(Splice1(s, idx)) + multiset{s[idx]} == multiset(s)
  {
    assert s == s[..idx] + [s[idx]] + s[idx + 1..];
  }

  /** The outcome of a key press in the keyword field: the new form, and
      whether the field was cleared and the browser's default action (for
      Enter, submitting the form) suppressed. */
  datatype KeyOutcome = KeyOutcome(form: Form, handled: bool)

  /** Enter on a field whose trimmed text is non-empty appends that trimmed
      text as a keyword; every other key press leaves the form alone. */
  function KeyPress(f: Form, key: string, text: string): (r: KeyOutcome)
    ensures r.handled <==> key == "Enter" && !IsBlank(text)
    ensures r.handled ==> r.form == f.(keywords := f.keywords + [Trim(text)])
    ensures r.handled ==> Trim(text) != [] && Trim(Trim(text)) == Trim(text)
    ensures !r.handled ==> r.form == f
  {
    TrimEmptyIffBlank(text);
    TrimIdempotent(text);
    if key == "Enter" && Trim(text) != [] then KeyOutcome(f.(keywords := f.keywords + [Trim(text)]), true)
    else KeyOutcome(f, false)
  }

  /** The remove button of keyword `idx`. */
  function RemoveKeyword(f: Form, idx: int): (r: Form)
    ensures r == f.(keywords := r.keywords)
    ensures 0 <= idx < |f.keywords| ==> r.keywords == f.keywords[..idx] + f.keywords[idx + 1..]
    ensures multiset(r.keywords) <= multiset(f.keywords)
  {
    var ks := Splice1(f.keywords, idx);
    f.(keywords := ks)
  }

  /** The remove button of image `idx`. */
  function RemoveImage(f: Form, idx: int): (r: Form)
    ensures r == f.(images := r.images)
    ensures 0 <= idx < |f.images| ==> r.images == f.images[..idx] + f.images[idx + 1..]
    ensures multiset(r.images) <= multiset(f.images)
  {
    f.(images := Splice1(f.images, idx))
  }

  /** Choosing one of the five category radios. */
  function SelectCategory(f: Form, c: Category): (r: Form)
    ensures IsCategoryKey(r.category) && CategoryOf(r.category) == Some(c)
    ensures r == f.(category := r.category)
  {
    CategoryKeyRoundTrip(c);
    f.(category := c.Key())
  }

  /** What the storage service answered for one uploaded file: the file was
      stored (and this is its public URL), it was not, or the upload call
      rejected. The URL is derived from a clock-based file name, so it is
      taken as given. */
  datatype UploadReply = Stored(publicUrl: string) | NotStored | UploadThrown(reason: BackendError)

  /** Some upload rejected. Nothing in the handler catches that, so the
      handler stops there and never updates the form. */
  predicate UploadAborted(replies: seq<UploadReply>) {
    exists k :: 0 <= k < |replies| && replies[k].UploadThrown?
  }

  /** The public URLs of the stored files, in file order. */
  function StoredUrls(replies: seq<UploadReply>): (r: seq<string>)
    ensures |r| <= |replies|
    decreases |replies|
  {
    if replies == [] then []
    else
      var last := replies[|replies| - 1];
      StoredUrls(replies[..|replies| - 1]) + (if last.Stored? then [last.publicUrl] else [])
  }

  lemma {:induction false} StoredUrlsAppend(a: seq<UploadReply>, b: seq<UploadReply>)
    ensures StoredUrls(a + b) == StoredUrls(a) + StoredUrls(b)
    decreases |b|
  {
    if b != [] {
      var b' := b[..|b| - 1];
      assert (a + b)[..|a + b| - 1] == a + b';
      assert (a + b)[|a + b| - 1] == b[|b| - 1];
      StoredUrlsAppend(a, b');
    } else {
      assert a + b == a;
    }
  }

  /** Every URL comes from a stored file, and every stored file's URL is
      there: all stored means all kept. */
  lemma {:induction false} StoredUrlsComplete(replies: seq<UploadReply>)
    ensures (forall k :: 0 <= k < |replies| ==> replies[k].Stored?) <==> |StoredUrls(replies)| == |replies|
    ensures forall u :: u in StoredUrls(replies) <==> Stored(u) in replies
    decreases |replies|
  {
    if replies != [] {
      var init := replies[..|replies| - 1];
      StoredUrlsComplete(init);
      assert replies == init + [replies[|replies| - 1]];
    }
  }

  /** `handleImageUpload`: upload the files one by one and append the URLs of
      those that were stored, in file order, after the images already there.
      A rejected upload aborts the handler before the form is touched. */
  method HandleImageUpload(f: Form, replies: seq<UploadReply>) returns (r: Form)
    ensures UploadAborted(replies) ==> r == f
    ensures !UploadAborted(replies) ==> r == f.(images := f.images + StoredUrls(replies))
  {
    var uploaded: seq<string> := [];
    var i := 0;
    while i < |replies|
      invariant 0 <= i <= |replies|
      invariant uploaded == StoredUrls(replies[..i])
      invariant forall k :: 0 <= k < i ==> !replies[k].UploadThrown?
    {
      if replies[i].UploadThrown? {
        r := f;
        return;
      }
      assert replies[..i + 1][..i] == replies[..i];
      if replies[i].Stored? {
        uploaded := uploaded + [replies[i].publicUrl];
      }
      i := i + 1;
    }
    assert replies[..i] == replies;
    r := f.(images := f.images + uploaded);
  }

  /** The form after an image upload, as `HandleImageUpload` leaves it. */
  function AfterUpload(f: Form, replies: seq<UploadReply>): Form {
    if UploadAborted(replies) then f else f.(images := f.images + StoredUrls(replies))
  }

  /** The request a submit sends: an update of post `id`, or an insert. */
  datatype WriteRequest = UpdatePost(id: string, form: Form) | InsertPosts(rows: seq<Form>)

  datatype Notice = Updated | Created | SubmitFailed(message: string)

  datatype SubmitOutcome = SubmitOutcome(request: WriteRequest, notice: Notice, navigateToDashboard: bool, loading: bool)

  /** `handleSubmit`: update when the route carries a (truthy) post id,
      insert otherwise; go back to the dashboard only on success; always end
      with `loading` false. */
  function Submit(f: Form, id: Option<string>, reply: Reply<()>): (r: SubmitOutcome)
    ensures r.request.UpdatePost? <==> id.Some? && id.value != ""
    ensures r.request.UpdatePost? ==> r.request == UpdatePost(id.value, f)
    ensures r.request.InsertPosts? ==> r.request.rows == [f]
    ensures r.navigateToDashboard <==> !reply.Fails()
    ensures r.notice.SubmitFailed? <==> reply.Fails()
    ensures !r.loading
  {
    var request := if id.Some? && id.value != "" then UpdatePost(id.value, f) else InsertPosts([f]);
    var notice :=
      match reply
      case Thrown(e) => SubmitFailed(e.message)
      case Answer(_, error) =>
        if error.Some? then SubmitFailed(error.value.message)
        else if request.UpdatePost? then Updated else Created;
    SubmitOutcome(request, notice, !reply.Fails(), false)
  }

  /** Every input the form reacts to. */
  datatype FormEvent =
    | EditTitle(title: string)
    | EditDescription(description: string)
    | EditDownloadUrl(url: string)
    | EditAdLink(url: string)
    | PickCategory(category: Category)
    | KeywordKey(key: string, text: string)
    | DropKeyword(idx: int)
    | ImagesUploaded(replies: seq<UploadReply>)
    | DropImage(idx: int)

  function Apply(f: Form, e: FormEvent): Form {
    match e
    case EditTitle(t) => f.(title := t)
    case EditDescription(d) => f.(description := d)
    case EditDownloadUrl(u) => f.(downloadUrl := u)
    case EditAdLink(u) => f.(adLink := u)
    case PickCategory(c) => SelectCategory(f, c)
    case KeywordKey(key, text) => KeyPress(f, key, text).form
    case DropKeyword(idx) => RemoveKeyword(f, idx)
    case ImagesUploaded(replies) => AfterUpload(f, replies)
    case DropImage(idx) => RemoveImage(f, idx)
  }

  function Run(f: Form, evs: seq<FormEvent>): Form
    decreases |evs|
  {
    if evs == [] then f else Apply(Run(f, evs[..|evs| - 1]), evs[|evs| - 1])
  }

  /** What every reachable form satisfies: a known category, `is_premium`
      never set, the default version list, and only non-empty, already
      trimmed keywords. */
  predicate Sound(f: Form) {
    && IsCategoryKey(f.category)
    && !f.isPremium
    && f.versionCompatibility == DefaultVersions
    && forall k :: 0 <= k < |f.keywords| ==> CleanKeyword(f.keywords[k])
  }

  /** A keyword the form can hold: non-empty and already trimmed. */
  predicate CleanKeyword(k: string) {
    k != [] && Trim(k) == k
  }

  lemma DropKeepsClean(ks: seq<string>, idx: int)
    requires forall k :: 0 <= k < |ks| ==> CleanKeyword(ks[k])
    ensures forall k :: 0 <= k < |Splice1(ks, idx)| ==> CleanKeyword(Splice1(ks, idx)[k])
  {
  }

  lemma AddKeepsClean(f: Form, key: string, text: string)
    requires forall k :: 0 <= k < |f.keywords| ==> CleanKeyword(f.keywords[k])
    ensures forall k :: 0 <= k < |KeyPress(f, key, text).form.keywords| ==> CleanKeyword(KeyPress(f, key, text).form.keywords[k])
  {
  }

  lemma ApplyKeepsSound(f: Form, e: FormEvent)
    requires Sound(f)
    ensures Sound(Apply(f, e))
  {
    match e
    case DropKeyword(idx) => DropKeepsClean(f.keywords, idx);
    case KeywordKey(key, text) => AddKeepsClean(f, key, text);
    case EditTitle(_) =>
    case EditDescription(_) =>
    case EditDownloadUrl(_) =>
    case EditAdLink(_) =>
    case PickCategory(c) =>
    case ImagesUploaded(_) =>
    case DropImage(_) =>
  }

  lemma {:induction false} RunKeepsSound(evs: seq<FormEvent>)
    ensures Sound(Run(InitialForm(), evs))
    decreases |evs|
  {
    if evs != [] {
      RunKeepsSound(evs[..|evs| - 1]);
      ApplyKeepsSound(Run(InitialForm(), evs[..|evs| - 1]), evs[|evs| - 1]);
    } else {
      assert IsCategoryKey(Mods.Key());
    }
  }

  /** Whatever the editing history, the row a submit writes (updated or
      inserted) is a sound form. */
  lemma SubmitWritesSoundForm(evs: seq<FormEvent>, id: Option<string>, reply: Reply<()>)
    ensures var r := Submit(Run(InitialForm(), evs), id, reply);
      match r.request
      case UpdatePost(_, form) => Sound(form)
      case InsertPosts(rows) => |rows| == 1 && Sound(rows[0])
  {
    RunKeepsSound(evs);
  }
}
