/** The "New Tracker" form (app/new-tracker.tsx).

    The form is a piece of component state (`name`, `description`, `emoji`,
    `imageUri`, `loading`, `error` and whether the emoji picker is open) that
    event handlers overwrite. Pressing Create validates the state, uploads the
    picked image if there is one, and writes a new tracker record.

    The behaviour is given twice: as a value-level specification (`FormState`,
    `Step`, `Submit`, `Run`) whose properties are proved as lemmas, and as the
    class `Form` whose fields the handlers update in place and whose methods
    are proved against that specification.

    The image library, the blob upload and the document write are foreign
    calls; their outcomes are parameters (`PickResult`, `UploadOutcome`,
    `StoreOutcome`).
 */
module NewTracker {
  import opened Wrappers
  import opened Text

  /** The signed-in user, as far as the form uses it. */
  datatype User = User(uid: string)

  /** The document written for a new tracker (its `createdAt` timestamp is
      not modelled). `imageUrl` is `None` for JavaScript's `null`. */
  datatype TrackerRecord = TrackerRecord(
    name: string,
    description: string,
    emoji: string,
    imageUrl: Option<string>,
    dailyCounts: map<string, int>,
    sharedWith: seq<string>,
    ownerId: string)

  /** The component state of the form. */
  datatype FormState = FormState(
    name: string,
    description: string,
    emoji: string,
    imageUri: string,
    loading: bool,
    error: ErrorMessage,
    emojiPickerOpen: bool)

  /** The state the form is mounted with. */
  const Initial := FormState("", "", "", "", false, NoError, false)

  /** What the form's `error` field can hold: nothing (the empty string),
      or one of the four messages the Create handler sets. */
  datatype ErrorMessage =
    | NoError
    | LoginRequired
    | NameRequired
    | IconRequired
    | CreateFailed
  {
    /** The text shown above the form. */
    function Text(): (t: string)
      ensures t == "" <==> this == NoError
    {
      match this
      case NoError => ""
      case LoginRequired => "You must be logged in to create a tracker"
      case NameRequired => "Name is required"
      case IconRequired => "Please select an emoji or image"
      case CreateFailed => "Failed to create tracker. Please try again."
    }
  }

  /** What the image library hands back: a cancelled pick, a picked image,
      or an exception (which the handler reports in an alert). */
  datatype PickResult = Canceled | Picked(uri: string) | PickError

  /** The image upload: it throws, or yields the download URL. */
  datatype UploadOutcome = UploadFailed | Uploaded(url: string)

  /** The document write: it throws, or yields a reference with an id. */
  datatype StoreOutcome = StoreFailed | Stored(docId: string)

  /** What one run of the Create handler ends in: a validation message, a
      failure of the upload or the write, or the record that was written
      (after which the screen navigates back). */
  datatype CreateResult =
    | Invalid(message: ErrorMessage)
    | Failed(message: ErrorMessage)
    | Created(record: TrackerRecord)

  /** The form state after the handler, with what it ended in. */
  datatype Attempt = Attempt(state: FormState, result: CreateResult)

  /** The form never holds an emoji and an image at once. */
  predicate IconExclusive(s: FormState) {
    s.emoji == "" || s.imageUri == ""
  }

  /** The form holds an emoji or an image. */
  predicate HasIcon(s: FormState) {
    s.emoji != "" || s.imageUri != ""
  }

  /** What holds between events: the icons exclude each other and no create
      is in flight. */
  predicate Settled(s: FormState) {
    IconExclusive(s) && !s.loading
  }

  /** The Create button is disabled when the trimmed name is empty or a
      create is in flight: it is enabled exactly when the name holds a
      character other than whitespace and line terminators and nothing is
      loading. */
  function CreateEnabled(s: FormState): (enabled: bool)
    ensures enabled <==> !AllTrimmable(s.name) && !s.loading
  {
    TrimEmptyIff(s.name);
    Trim(s.name) != "" && !s.loading
  }

  /** The Create handler run to completion on state `s`.

      Three checks run in a fixed order and the first that fails sets its
      message and stops the handler: signed in, a non-blank name, an icon.
      Past them, `loading` is set and `error` cleared; the image is uploaded
      only when there is one; the record written holds the trimmed name and
      description, no counts, no sharers and the user as owner. Whatever
      happens next, `loading` is false at the end. */
  function Submit(s: FormState, user: Option<User>, upload: UploadOutcome, store: StoreOutcome): (a: Attempt)
    // the three checks, first failure wins
    ensures a.result == Invalid(LoginRequired) <==> user.None?
    ensures a.result == Invalid(NameRequired) <==> user.Some? && Trim(s.name) == ""
    ensures a.result == Invalid(IconRequired) <==> user.Some? && Trim(s.name) != "" && !HasIcon(s)
    ensures a.result.Invalid? ==> a.state == s.(error := a.result.message)
    ensures user.Some? && Trim(s.name) != "" && HasIcon(s) ==> !a.result.Invalid?
    // past the checks
    ensures a.result.Failed? ==> a.result.message == CreateFailed
    ensures !a.result.Invalid? ==>
      a.state == s.(loading := false, error := if a.result.Created? then NoError else CreateFailed)
    ensures a.result.Created? <==>
      user.Some? && Trim(s.name) != "" && HasIcon(s) &&
      (s.imageUri != "" ==> upload.Uploaded?) && store.Stored? && store.docId != ""
    // the record written
    ensures a.result.Created? ==>
      var rec := a.result.record;
      rec.name == Trim(s.name) && rec.name != [] &&
      rec.description == Trim(s.description) &&
      rec.emoji == s.emoji &&
      rec.dailyCounts == map[] && rec.sharedWith == [] &&
      rec.ownerId == user.value.uid &&
      (rec.imageUrl.Some? <==> s.imageUri != "") &&
      (rec.imageUrl.Some? ==> upload == Uploaded(rec.imageUrl.value))
    ensures a.result.Created? && IconExclusive(s) ==>
      (a.result.record.emoji != "" <==> a.result.record.imageUrl.None?)
  {
    if user.None? then
      Attempt(s.(error := LoginRequired), Invalid(LoginRequired))
    else if Trim(s.name) == "" then
      Attempt(s.(error := NameRequired), Invalid(NameRequired))
    else if s.emoji == "" && s.imageUri == "" then
      Attempt(s.(error := IconRequired), Invalid(IconRequired))
    else
      Persist(s.(loading := true, error := NoError), user.value, upload, store)
  }

  /** The part of the Create handler past validation, from the state `busy`
      in which `loading` is set and `error` cleared: upload the image if
      there is one, then write the record; `loading` is false at the end. */
  function Persist(busy: FormState, user: User, upload: UploadOutcome, store: StoreOutcome): (a: Attempt)
    requires busy.loading && busy.error == NoError
    ensures !a.result.Invalid?
    ensures a.state == busy.(loading := false, error := if a.result.Created? then NoError else CreateFailed)
  {
    var failed := Attempt(busy.(loading := false, error := CreateFailed), Failed(CreateFailed));
    if busy.imageUri != "" && upload.UploadFailed? then
      failed
    else
      var imageUrl := if busy.imageUri != "" then Some(upload.url) else None;
      var rec := TrackerRecord(Trim(busy.name), Trim(busy.description), busy.emoji, imageUrl,
                               map[], [], user.uid);
      match store
      case StoreFailed => failed
      case Stored(id) =>
        if id != "" then Attempt(busy.(loading := false), Created(rec)) else failed
  }

  /** The events the form reacts to. `CreatePressed` carries what the
      environment answers during the handler. */
  datatype Event =
    | NameChanged(text: string)
    | DescriptionChanged(text: string)
    | EmojiPickerOpened
    | EmojiPickerClosed
    | EmojiSelected(emoji: string)
    | ImagePicked(result: PickResult)
    | ImageRemoved
    | CreatePressed(user: Option<User>, upload: UploadOutcome, store: StoreOutcome)

  /** The state after one event. */
  function Step(s: FormState, e: Event): (t: FormState)
    // every event keeps the form settled
    ensures IconExclusive(s) ==> IconExclusive(t)
    ensures !s.loading ==> !t.loading
    // choosing an icon establishes exclusivity whatever came before
    ensures e.EmojiSelected? || (e.ImagePicked? && e.result.Picked?) ==> IconExclusive(t)
    // what each event changes
    ensures e.NameChanged? ==> t == s.(name := e.text, error := NoError)
    ensures e.DescriptionChanged? ==> t == s.(description := e.text)
    ensures e.EmojiPickerOpened? ==> t == s.(emojiPickerOpen := true)
    ensures e.EmojiPickerClosed? ==> t == s.(emojiPickerOpen := false)
    ensures e.EmojiSelected? ==> t == s.(emoji := e.emoji, imageUri := "", emojiPickerOpen := false)
    ensures e.ImagePicked? ==>
      t == if e.result.Picked? then s.(imageUri := e.result.uri, emoji := "") else s
    ensures e.ImageRemoved? ==> t == s.(imageUri := "")
    ensures e.CreatePressed? ==>
      t == if CreateEnabled(s) then Submit(s, e.user, e.upload, e.store).state else s
  {
    match e
    case NameChanged(text) => s.(name := text, error := NoError)
    case DescriptionChanged(text) => s.(description := text)
    case EmojiPickerOpened => s.(emojiPickerOpen := true)
    case EmojiPickerClosed => s.(emojiPickerOpen := false)
    case EmojiSelected(emoji) => s.(emoji := emoji, imageUri := "", emojiPickerOpen := false)
    case ImagePicked(result) =>
      (match result
       case Picked(uri) => s.(imageUri := uri, emoji := "")
       case Canceled => s
       case PickError => s)
    case ImageRemoved => s.(imageUri := "")
    case CreatePressed(user, upload, store) =>
      if CreateEnabled(s) then Submit(s, user, upload, store).state else s
  }

  /** The state after a sequence of events, applied in order. */
  function Run(s: FormState, events: seq<Event>): (t: FormState)
    decreases |events|
  {
    if events == [] then s else Run(Step(s, events[0]), events[1..])
  }

  /** Across any sequence of events the form stays settled: never an emoji
      and an image at once, and never left loading. */
  lemma {:induction false} RunKeepsSettled(s: FormState, events: seq<Event>)
    requires Settled(s)
    ensures Settled(Run(s, events))
    decreases |events|
  {
    if events != [] {
      RunKeepsSettled(Step(s, events[0]), events[1..]);
    }
  }

  /** Every state the form can reach from the one it is mounted with is
      settled. */
  lemma ReachableSettled(events: seq<Event>)
    ensures Settled(Run(Initial, events))
  {
    RunKeepsSettled(Initial, events);
  }

  /** A tracker created from any reachable state has exactly one icon: an
      emoji or an image URL, never both and never neither. */
  lemma ReachableCreateHasOneIcon(events: seq<Event>, user: Option<User>,
                                  upload: UploadOutcome, store: StoreOutcome)
    ensures var a := Submit(Run(Initial, events), user, upload, store);
      a.result.Created? ==> (a.result.record.emoji != "" <==> a.result.record.imageUrl.None?)
  {
    ReachableSettled(events);
  }

  /** The name check rejects exactly the names made of whitespace and line
      terminators alone (the empty name among them). */
  lemma NameCheckRejectsBlank(s: FormState, user: Option<User>, upload: UploadOutcome, store: StoreOutcome)
    ensures Submit(s, user, upload, store).result == Invalid(NameRequired) <==>
      user.Some? && AllTrimmable(s.name)
  {
    TrimEmptyIff(s.name);
  }

  /** The name written to a new tracker neither starts nor ends with
      whitespace or a line terminator. */
  lemma CreatedNameIsTrimmed(s: FormState, user: Option<User>, upload: UploadOutcome, store: StoreOutcome)
    ensures var a := Submit(s, user, upload, store);
      a.result.Created? ==>
        var n := a.result.record.name;
        |n| > 0 && !IsTrimmable(n[0]) && !IsTrimmable(n[|n| - 1])
  {
    TrimSpec(s.name);
  }

  /** The upload's outcome matters only when an image was picked. */
  lemma UploadOnlyForImage(s: FormState, user: Option<User>, upload: UploadOutcome, store: StoreOutcome)
    requires s.imageUri == ""
    ensures Submit(s, user, upload, store) == Submit(s, user, UploadFailed, store)
  {
  }

  /** Through the button, the name check never fires: the button is disabled
      while the trimmed name is empty. */
  lemma EnabledPassesNameCheck(s: FormState, user: Option<User>, upload: UploadOutcome, store: StoreOutcome)
    requires CreateEnabled(s)
    ensures Submit(s, user, upload, store).result != Invalid(NameRequired)
  {
  }

  /** The form component: the fields the handlers overwrite. */
  class Form {
    var name: string
    var description: string
    var emoji: string
    var imageUri: string
    var loading: bool
    var error: ErrorMessage
    var emojiPickerOpen: bool

    /** The fields as a value. */
    function Snapshot(): (v: FormState)
      reads this
    {
      FormState(name, description, emoji, imageUri, loading, error, emojiPickerOpen)
    }

    constructor ()
      ensures Snapshot() == Initial
    {
      name, description, emoji, imageUri := "", "", "", "";
      loading, error, emojiPickerOpen := false, NoError, false;
    }

    /** The name field's `onChangeText`. */
    method ChangeName(text: string)
      modifies this
      ensures Snapshot() == Step(old(Snapshot()), NameChanged(text))
    {
      name := text;
      error := NoError;
    }

    /** The description field's `onChangeText`. */
    method ChangeDescription(text: string)
      modifies this
      ensures Snapshot() == Step(old(Snapshot()), DescriptionChanged(text))
    {
      description := text;
    }

    /** The Select Emoji button. */
    method OpenEmojiPicker()
      modifies this
      ensures Snapshot() == Step(old(Snapshot()), EmojiPickerOpened)
    {
      emojiPickerOpen := true;
    }

    /** The emoji picker's `onClose`. */
    method CloseEmojiPicker()
      modifies this
      ensures Snapshot() == Step(old(Snapshot()), EmojiPickerClosed)
    {
      emojiPickerOpen := false;
    }

    /** The emoji picker's `onEmojiSelected`: the emoji replaces any image. */
    method SelectEmoji(selected: string)
      modifies this
      ensures Snapshot() == Step(old(Snapshot()), EmojiSelected(selected))
      ensures emoji == selected && imageUri == "" && IconExclusive(Snapshot())
    {
      emoji := selected;
      imageUri := "";
      emojiPickerOpen := false;
    }

    /** `pickImage`, given what the image library answered: a picked image
        replaces any emoji; a cancelled or failed pick changes nothing. */
    method PickImage(result: PickResult)
      modifies this
      ensures Snapshot() == Step(old(Snapshot()), ImagePicked(result))
      ensures result.Picked? ==> imageUri == result.uri && emoji == "" && IconExclusive(Snapshot())
      ensures !result.Picked? ==> Snapshot() == old(Snapshot())
    {
      if result.Picked? {
        imageUri := result.uri;
        emoji := "";
      }
    }

    /** The Remove Image button. */
    method RemoveImage()
      modifies this
      ensures Snapshot() == Step(old(Snapshot()), ImageRemoved)
    {
      imageUri := "";
    }

    /** `handleCreate`, given what the upload and the write answer. */
    method HandleCreate(user: Option<User>, upload: UploadOutcome, store: StoreOutcome)
      returns (result: CreateResult)
      modifies this
      ensures result == Submit(old(Snapshot()), user, upload, store).result
      ensures Snapshot() == Submit(old(Snapshot()), user, upload, store).state
    {
      if user.None? {
        error := LoginRequired;
        return Invalid(LoginRequired);
      }
      if Trim(name) == "" {
        error := NameRequired;
        return Invalid(NameRequired);
      }
      if emoji == "" && imageUri == "" {
        error := IconRequired;
        return Invalid(IconRequired);
      }
      assert Submit(old(Snapshot()), user, upload, store)
          == Persist(Snapshot().(loading := true, error := NoError), user.value, upload, store);
      result := Save(user.value, upload, store);
    }

    /** The `try` block of `handleCreate`: mark the form busy, upload the
        image if there is one, write the record; the `finally` clears
        `loading`. */
    method Save(user: User, upload: UploadOutcome, store: StoreOutcome) returns (result: CreateResult)
      modifies this
      ensures var a := Persist(old(Snapshot()).(loading := true, error := NoError), user, upload, store);
        result == a.result && Snapshot() == a.state
    {
      loading := true;
      error := NoError;
      var imageUrl: Option<string> := None;
      if imageUri != "" {
        match upload {
          case UploadFailed =>
            error := CreateFailed;
            loading := false;
            return Failed(CreateFailed);
          case Uploaded(url) =>
            imageUrl := Some(url);
        }
      }
      var record := TrackerRecord(Trim(name), Trim(description), emoji, imageUrl,
                                  map[], [], user.uid);
      match store {
        case StoreFailed =>
          error := CreateFailed;
          result := Failed(CreateFailed);
        case Stored(id) =>
          if id != "" {
            result := Created(record);
          } else {
            error := CreateFailed;
            result := Failed(CreateFailed);
          }
      }
      loading := false;
    }

    /** The Create button: it runs the handler only while it is enabled. */
    method PressCreate(user: Option<User>, upload: UploadOutcome, store: StoreOutcome)
      returns (result: Option<CreateResult>)
      modifies this
      ensures result.None? <==> !CreateEnabled(old(Snapshot()))
      ensures result.Some? ==> result.value == Submit(old(Snapshot()), user, upload, store).result
      ensures Snapshot() == Step(old(Snapshot()), CreatePressed(user, upload, store))
    {
      if Trim(name) != "" && !loading {
        var r := HandleCreate(user, upload, store);
        result := Some(r);
      } else {
        result := None;
      }
    }
  }
}
