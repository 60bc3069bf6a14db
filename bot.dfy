/**
  The `/leech` command handler of a Telegram bot: it downloads a torrent into a
  shared working directory, skips the files above the Bot API's upload limit,
  sends the others to the chat one by one, and always clears the directory.

  The handler is modelled as a method that builds the ordered trace of effects
  it has on the outside world. Everything a collaborator decides (the chat,
  the torrent download, each upload, an unexpected failure of a chat call) is
  an input. `HandlerTrace` is the specification of that trace; the lemmas
  about it are in module BotProperties.
 */
module Bot {
  import opened Wrappers
  import opened Strings

  /** The upload limit of the Bot API: 2 GiB. */
  const MaxFileSize: nat := 2 * 1024 * 1024 * 1024

  /** A file the download left in the working directory, with its size in bytes. */
  datatype DownloadedFile = DownloadedFile(path: string, size: nat)

  /** What the download did: raise with an error text, or return its files in walk order. */
  datatype Download = DownloadFailed(error: string) | Downloaded(files: seq<DownloadedFile>)

  /** A message entity; only its type takes part in the decisions. */
  datatype Entity = Entity(kind: string)

  /** The incoming message; `command` holds the command's whitespace-separated tokens. */
  datatype Message = Message(chatType: string, text: Option<string>, entities: seq<Entity>, command: seq<string>)

  /** The chat call (a reply or a status edit) numbered `call`, counting from 0, raises `error`. */
  datatype Fault = Fault(call: nat, error: string)

  /**
    What the collaborators decide for one invocation: the bot's own username,
    the outcome of the download, the files whose upload raises (with the error
    text), and possibly one chat call that raises unexpectedly.
   */
  datatype Env = Env(
    botUsername: string,
    download: Download,
    uploadErrors: map<string, string>,
    fault: Option<Fault>)

  /**
    One effect of the handler: a new reply in the chat, an edit of the status
    message, a document upload attempt, or a reset of the working directory.
    Chat texts are kept as `Text` values; `Render` gives the exact string sent.
   */
  datatype Effect = Reply(text: Text) | EditStatus(text: Text) | SendDoc(path: string) | Cleanup

  /** The texts the handler sends. The upload-failure and skipped-files texts name files by their paths. */
  datatype Text =
    | Usage
    | Downloading
    | DownloadError(error: string)
    | NoFiles
    | Skipped(paths: seq<string>)
    | AllTooLarge
    | Uploading
    | UploadError(path: string, error: string)
    | Done
    | Unexpected(error: string)

  /** The string the handler sends for each text. */
  function Render(t: Text): string
  {
    match t
    case Usage => "Usage: /leech <magnet link or .torrent URL>"
    case Downloading => "Downloading torrent..."
    case DownloadError(error) => "❌ Failed to download: " + error
    case NoFiles => "❌ No files found after download."
    case Skipped(paths) => SkippedHeader + JoinLines(Basenames(paths))
    case AllTooLarge => "❌ All files are too large to upload to Telegram (max 2GB)."
    case Uploading => "Uploading to Telegram..."
    case UploadError(path, error) => "❌ Failed to upload " + Basename(path) + ": " + error
    case Done => "✅ Done!"
    case Unexpected(error) => "❌ Unexpected error: " + error
  }

  const SkippedHeader: string := "⚠️ Skipped files (too large for Telegram):\n"

  function Basenames(paths: seq<string>): seq<string>
  {
    seq(|paths|, k requires 0 <= k < |paths| => Basename(paths[k]))
  }

  function Paths(files: seq<DownloadedFile>): seq<string>
  {
    seq(|files|, k requires 0 <= k < |files| => files[k].path)
  }

  // ---------------------------------------------------------------------------
  // Size classification
  // ---------------------------------------------------------------------------

  /** A file strictly above the limit cannot be uploaded. */
  predicate IsFileTooLarge(f: DownloadedFile)
  {
    f.size > MaxFileSize
  }

  /** The files above the limit, in download order. */
  function TooLarge(files: seq<DownloadedFile>): (big: seq<DownloadedFile>)
    ensures |big| <= |files|
    ensures forall k :: 0 <= k < |big| ==> IsFileTooLarge(big[k])
  {
    if files == [] then []
    else (if IsFileTooLarge(files[0]) then [files[0]] else []) + TooLarge(files[1..])
  }

  /** The files within the limit, in download order. */
  function ToUpload(files: seq<DownloadedFile>): (small: seq<DownloadedFile>)
    ensures |small| <= |files|
    ensures forall k :: 0 <= k < |small| ==> !IsFileTooLarge(small[k])
  {
    if files == [] then []
    else (if IsFileTooLarge(files[0]) then [] else [files[0]]) + ToUpload(files[1..])
  }

  // ---------------------------------------------------------------------------
  // Mentions and group gating
  // ---------------------------------------------------------------------------

  predicate HasMentionEntity(entities: seq<Entity>)
  {
    exists k :: 0 <= k < |entities| && entities[k].kind == "mention"
  }

  /**
    Whether the bot is mentioned: some entity is a mention and the username
    occurs in the text. Looking into an absent text raises.
   */
  function GetMention(m: Message, botUsername: string): (r: Outcome<bool>)
    ensures r == Raised <==> HasMentionEntity(m.entities) && m.text.None?
    ensures r == Returned(true) <==>
      |m.entities| > 0 && HasMentionEntity(m.entities) && m.text.Some? && Contains(m.text.value, botUsername)
  {
    if |m.entities| == 0 then Returned(false) else ScanEntities(m.entities, m.text, botUsername)
  }

  /** The search over the entities, returning at the first mention that settles it. */
  function ScanEntities(entities: seq<Entity>, text: Option<string>, botUsername: string): (r: Outcome<bool>)
    ensures r == Raised <==> HasMentionEntity(entities) && text.None?
    ensures r == Returned(true) <==> HasMentionEntity(entities) && text.Some? && Contains(text.value, botUsername)
  {
    if entities == [] then Returned(false)
    else if entities[0].kind == "mention" then
      match text
      case None => Raised
      case Some(t) => if Contains(t, botUsername) then Returned(true) else ScanEntities(entities[1..], text, botUsername)
    else
      assert forall k :: 1 <= k < |entities| ==> entities[k] == entities[1..][k - 1];
      ScanEntities(entities[1..], text, botUsername)
  }

  predicate IsGroupChat(chatType: string)
  {
    chatType == "group" || chatType == "supergroup"
  }

  /** In a group the text must name the bot or start with the command itself. */
  predicate Addresses(text: Option<string>, botUsername: string)
  {
    text.Some? && text.value != "" && (Contains(text.value, "@" + botUsername) || "/leech" <= text.value)
  }

  /** The handler goes past its gate. */
  predicate Addressed(m: Message, botUsername: string)
  {
    !IsGroupChat(m.chatType) || Addresses(m.text, botUsername)
  }

  // ---------------------------------------------------------------------------
  // Specification of the handler's trace
  // ---------------------------------------------------------------------------

  /** Replies and status edits: the chat calls that can raise into the outer handler. */
  predicate IsChatCall(e: Effect)
  {
    e.Reply? || e.EditStatus?
  }

  /** The number of chat calls in a trace. */
  function ChatCalls(t: seq<Effect>): nat
  {
    if t == [] then 0 else (if IsChatCall(t[0]) then 1 else 0) + ChatCalls(t[1..])
  }

  /** The part of `t` before its chat call numbered `n`. */
  function Before(t: seq<Effect>, n: nat): seq<Effect>
  {
    if t == [] then []
    else if IsChatCall(t[0]) && n == 0 then []
    else [t[0]] + Before(t[1..], if IsChatCall(t[0]) then n - 1 else n)
  }

  /** One pass of the upload loop: the attempt, then the failure reply if it raised. */
  function UploadStep(f: DownloadedFile, uploadErrors: map<string, string>): seq<Effect>
  {
    [SendDoc(f.path)] +
    (if f.path in uploadErrors then [Reply(UploadError(f.path, uploadErrors[f.path]))] else [])
  }

  /** The effects of the upload loop over `files`. */
  function UploadEffects(files: seq<DownloadedFile>, uploadErrors: map<string, string>): seq<Effect>
  {
    if files == [] then []
    else UploadEffects(files[..|files| - 1], uploadErrors) + UploadStep(files[|files| - 1], uploadErrors)
  }

  /** The notice about skipped files, sent only when there are some. */
  function Notice(tooLarge: seq<DownloadedFile>): seq<Effect>
  {
    if tooLarge == [] then [] else [Reply(Skipped(Paths(tooLarge)))]
  }

  /** From the upload decision to the end of the `try` block. */
  function Delivery(toUpload: seq<DownloadedFile>, uploadErrors: map<string, string>): seq<Effect>
  {
    if toUpload == [] then [EditStatus(AllTooLarge), Cleanup]
    else [EditStatus(Uploading)] + UploadEffects(toUpload, uploadErrors) + [EditStatus(Done)]
  }

  /** From the download's outcome to the end of the `try` block. */
  function AfterDownload(env: Env): seq<Effect>
  {
    match env.download
    case DownloadFailed(error) => [EditStatus(DownloadError(error)), Cleanup]
    case Downloaded(files) =>
      if files == [] then [EditStatus(NoFiles), Cleanup]
      else Notice(TooLarge(files)) + Delivery(ToUpload(files), env.uploadErrors)
  }

  /** The effects of the `try` block when no chat call raises. */
  function Planned(m: Message, env: Env): seq<Effect>
  {
    if !Addressed(m, env.botUsername) then []
    else if |m.command| < 2 then [Reply(Usage)]
    else [Reply(Downloading)] + AfterDownload(env)
  }

  /** The fault, if any, has not struck among the first `calls` chat calls. */
  predicate Pending(fault: Option<Fault>, calls: nat)
  {
    fault.None? || fault.value.call >= calls
  }

  /** The fault strikes one of the chat calls of `plan`. */
  predicate Strikes(fault: Option<Fault>, plan: seq<Effect>)
  {
    fault.Some? && fault.value.call < ChatCalls(plan)
  }

  /**
    The whole trace: the planned effects, cut at the chat call that raises
    and followed by the unexpected-error reply; then the final cleanup.
   */
  function HandlerTrace(m: Message, env: Env): seq<Effect>
  {
    var plan := Planned(m, env);
    (if Strikes(env.fault, plan)
     then Before(plan, env.fault.value.call) + [Reply(Unexpected(env.fault.value.error))]
     else plan)
    + [Cleanup]
  }

  // ---------------------------------------------------------------------------
  // Lemmas the handler's proof uses
  // ---------------------------------------------------------------------------

  lemma {:induction false} ChatCallsAppend(a: seq<Effect>, b: seq<Effect>)
    ensures ChatCalls(a + b) == ChatCalls(a) + ChatCalls(b)
  {
    if a == [] {
      assert a + b == b;
    } else {
      ChatCallsAppend(a[1..], b);
      assert (a + b)[0] == a[0];
      assert (a + b)[1..] == a[1..] + b;
    }
  }

  /** If chat call `e` comes right after `a` in `plan`, the fault numbered |a|'s calls cuts `plan` at `a`. */
  lemma {:induction false} BeforeChatCall(a: seq<Effect>, e: Effect, rest: seq<Effect>)
    requires IsChatCall(e)
    ensures Before(a + [e] + rest, ChatCalls(a)) == a && ChatCalls(a) < ChatCalls(a + [e] + rest)
  {
    var plan := a + [e] + rest;
    if a == [] {
      assert plan[0] == e;
      assert plan == [e] + rest;
    } else {
      assert plan[0] == a[0];
      assert plan[1..] == a[1..] + [e] + rest;
      BeforeChatCall(a[1..], e, rest);
      assert [a[0]] + a[1..] == a;
    }
  }

  lemma {:induction false} UploadEffectsAppend(a: seq<DownloadedFile>, b: seq<DownloadedFile>, uploadErrors: map<string, string>)
    ensures UploadEffects(a + b, uploadErrors) == UploadEffects(a, uploadErrors) + UploadEffects(b, uploadErrors)
    decreases |b|
  {
    if b == [] {
      assert a + b == a;
    } else {
      var b' := b[..|b| - 1];
      var ab := a + b;
      assert ab[..|ab| - 1] == a + b';
      assert ab[|ab| - 1] == b[|b| - 1];
      UploadEffectsAppend(a, b', uploadErrors);
      assert UploadEffects(ab, uploadErrors)
          == UploadEffects(a + b', uploadErrors) + UploadStep(b[|b| - 1], uploadErrors);
      assert UploadEffects(b, uploadErrors)
          == UploadEffects(b', uploadErrors) + UploadStep(b[|b| - 1], uploadErrors);
    }
  }

  // ---------------------------------------------------------------------------
  // The handler
  // ---------------------------------------------------------------------------

  /**
    One chat call of the handler. If the fault is set for this call it raises
    and the trace is cut just before the call's effect in `plan`.
   */
  method Call(trace: seq<Effect>, calls: nat, e: Effect, fault: Option<Fault>,
              ghost plan: seq<Effect>, ghost rest: seq<Effect>)
    returns (trace': seq<Effect>, calls': nat, raised: bool)
    requires IsChatCall(e)
    requires calls == ChatCalls(trace) && Pending(fault, calls)
    requires plan == trace + [e] + rest
    ensures raised ==> Strikes(fault, plan) && trace' == Before(plan, fault.value.call)
    ensures !raised ==> trace' == trace + [e] && calls' == ChatCalls(trace') && Pending(fault, calls')
  {
    raised := fault.Some? && fault.value.call == calls;
    if raised {
      BeforeChatCall(trace, e, rest);
      trace', calls' := trace, calls;
    } else {
      ChatCallsAppend(trace, [e]);
      trace', calls' := trace + [e], calls + 1;
    }
  }

  /** An early exit of the `try` block: the status edit `e`, then the reset of the download directory. */
  method GiveUp(trace0: seq<Effect>, calls0: nat, e: Effect, fault: Option<Fault>, ghost plan: seq<Effect>)
    returns (trace: seq<Effect>, raised: bool)
    requires e.EditStatus?
    requires calls0 == ChatCalls(trace0) && Pending(fault, calls0)
    requires plan == trace0 + [e] + [Cleanup]
    ensures !raised ==> trace == plan && Pending(fault, ChatCalls(trace))
    ensures raised ==> Strikes(fault, plan) && trace == Before(plan, fault.value.call)
  {
    var calls;
    trace, calls, raised := Call(trace0, calls0, e, fault, plan, [Cleanup]);
    if raised {
      return;
    }
    ChatCallsAppend(trace, [Cleanup]);
    trace := trace + [Cleanup];
  }

  /** The loop's effects after one more pass. */
  lemma UploadEffectsSnoc(files: seq<DownloadedFile>, i: nat, uploadErrors: map<string, string>)
    requires i < |files|
    ensures UploadEffects(files[..i + 1], uploadErrors) == UploadEffects(files[..i], uploadErrors) + UploadStep(files[i], uploadErrors)
  {
    var prefix := files[..i + 1];
    assert prefix[..|prefix| - 1] == files[..i] && prefix[|prefix| - 1] == files[i];
  }

  /** The whole loop's effects around one pass. */
  lemma UploadEffectsSplit(files: seq<DownloadedFile>, i: nat, uploadErrors: map<string, string>)
    requires i < |files|
    ensures UploadEffects(files, uploadErrors)
         == UploadEffects(files[..i], uploadErrors) + UploadStep(files[i], uploadErrors) + UploadEffects(files[i + 1..], uploadErrors)
  {
    UploadEffectsSnoc(files, i, uploadErrors);
    assert files == files[..i + 1] + files[i + 1..];
    UploadEffectsAppend(files[..i + 1], files[i + 1..], uploadErrors);
  }

  /** The loop's effects so far, the next file's, and the rest's make up the whole loop's effects. */
  lemma UploadEffectsAt(files: seq<DownloadedFile>, i: nat, uploadErrors: map<string, string>,
                        head: seq<Effect>, tail: seq<Effect>)
    requires i < |files|
    ensures head + UploadEffects(files[..i + 1], uploadErrors)
         == (head + UploadEffects(files[..i], uploadErrors)) + UploadStep(files[i], uploadErrors)
    ensures head + UploadEffects(files, uploadErrors) + tail
         == (head + UploadEffects(files[..i], uploadErrors)) + UploadStep(files[i], uploadErrors)
            + (UploadEffects(files[i + 1..], uploadErrors) + tail)
  {
    var done, step, later := UploadEffects(files[..i], uploadErrors), UploadStep(files[i], uploadErrors), UploadEffects(files[i + 1..], uploadErrors);
    UploadEffectsSnoc(files, i, uploadErrors);
    UploadEffectsSplit(files, i, uploadErrors);
    Regroup(head, done, step, later, tail);
  }

  /** Concatenation regrouped around its middle part. */
  lemma Regroup<T>(head: seq<T>, done: seq<T>, step: seq<T>, later: seq<T>, tail: seq<T>)
    ensures head + (done + step) == (head + done) + step
    ensures head + (done + step + later) + tail == (head + done) + step + (later + tail)
  {
  }

  /** One pass of the upload loop: send `f`; if that raises, reply with the failure. */
  method UploadOne(f: DownloadedFile, uploadErrors: map<string, string>, fault: Option<Fault>,
                   trace0: seq<Effect>, calls0: nat, ghost plan: seq<Effect>, ghost tail: seq<Effect>)
    returns (trace: seq<Effect>, calls: nat, raised: bool)
    requires calls0 == ChatCalls(trace0) && Pending(fault, calls0)
    requires plan == trace0 + UploadStep(f, uploadErrors) + tail
    ensures raised ==> Strikes(fault, plan) && trace == Before(plan, fault.value.call)
    ensures !raised ==> trace == trace0 + UploadStep(f, uploadErrors)
    ensures !raised ==> calls == ChatCalls(trace) && Pending(fault, calls)
  {
    // reply_document: its failure is caught for this file alone.
    ChatCallsAppend(trace0, [SendDoc(f.path)]);
    trace, calls, raised := trace0 + [SendDoc(f.path)], calls0, false;
    if f.path in uploadErrors {
      var e := Reply(UploadError(f.path, uploadErrors[f.path]));
      trace, calls, raised := Call(trace, calls, e, fault, plan, tail);
    }
  }

  /**
    The upload loop: each file in turn is sent, and a failed send is reported
    by a reply naming the file before the loop goes on with the next one.
    `plan` is the trace the whole `try` block would have without a fault.
   */
  method UploadLoop(toUpload: seq<DownloadedFile>, uploadErrors: map<string, string>, fault: Option<Fault>,
                    trace0: seq<Effect>, calls0: nat, ghost plan: seq<Effect>, ghost tail: seq<Effect>)
    returns (trace: seq<Effect>, calls: nat, raised: bool)
    requires calls0 == ChatCalls(trace0) && Pending(fault, calls0)
    requires plan == trace0 + UploadEffects(toUpload, uploadErrors) + tail
    ensures raised ==> Strikes(fault, plan) && trace == Before(plan, fault.value.call)
    ensures !raised ==> trace == trace0 + UploadEffects(toUpload, uploadErrors)
    ensures !raised ==> calls == ChatCalls(trace) && Pending(fault, calls)
  {
    trace, calls, raised := trace0, calls0, false;
    var i := 0;
    while i < |toUpload|
      invariant 0 <= i <= |toUpload|
      invariant trace == trace0 + UploadEffects(toUpload[..i], uploadErrors)
      invariant calls == ChatCalls(trace) && Pending(fault, calls)
    {
      UploadEffectsAt(toUpload, i, uploadErrors, trace0, tail);
      ghost var later := UploadEffects(toUpload[i + 1..], uploadErrors) + tail;
      trace, calls, raised := UploadOne(toUpload[i], uploadErrors, fault, trace, calls, plan, later);
      if raised {
        return;
      }
      i := i + 1;
    }
    assert toUpload[..i] == toUpload;
  }

  /**
    The part of the `try` block after a download that produced files: the
    notice about skipped files, then the rest in `Dispatch`.
   */
  method Deliver(files: seq<DownloadedFile>, env: Env, trace0: seq<Effect>, calls0: nat, ghost plan: seq<Effect>)
    returns (trace: seq<Effect>, raised: bool)
    requires calls0 == ChatCalls(trace0) && Pending(env.fault, calls0)
    requires plan == trace0 + Notice(TooLarge(files)) + Delivery(ToUpload(files), env.uploadErrors)
    ensures !raised ==> trace == plan && Pending(env.fault, ChatCalls(trace))
    ensures raised ==> Strikes(env.fault, plan) && trace == Before(plan, env.fault.value.call)
  {
    var calls;
    trace, calls, raised := trace0, calls0, false;
    var tooLarge := TooLarge(files);
    ghost var delivery := Delivery(ToUpload(files), env.uploadErrors);
    if tooLarge != [] {
      var e := Reply(Skipped(Paths(tooLarge)));
      assert Notice(tooLarge) == [e];
      trace, calls, raised := Call(trace, calls, e, env.fault, plan, delivery);
      if raised {
        return;
      }
    }
    assert plan == trace + delivery;
    trace, raised := Dispatch(ToUpload(files), env, trace, calls, plan);
  }

  /** The check that something is left to upload, then the uploads. */
  method Dispatch(toUpload: seq<DownloadedFile>, env: Env, trace0: seq<Effect>, calls0: nat, ghost plan: seq<Effect>)
    returns (trace: seq<Effect>, raised: bool)
    requires calls0 == ChatCalls(trace0) && Pending(env.fault, calls0)
    requires plan == trace0 + Delivery(toUpload, env.uploadErrors)
    ensures !raised ==> trace == plan && Pending(env.fault, ChatCalls(trace))
    ensures raised ==> Strikes(env.fault, plan) && trace == Before(plan, env.fault.value.call)
  {
    if toUpload == [] {
      trace, raised := GiveUp(trace0, calls0, EditStatus(AllTooLarge), env.fault, plan);
      return;
    }
    trace, raised := UploadPhase(toUpload, env, trace0, calls0, plan);
  }

  /** The status edit before uploading, the upload loop, and the final status. */
  method UploadPhase(toUpload: seq<DownloadedFile>, env: Env, trace0: seq<Effect>, calls0: nat, ghost plan: seq<Effect>)
    returns (trace: seq<Effect>, raised: bool)
    requires toUpload != []
    requires calls0 == ChatCalls(trace0) && Pending(env.fault, calls0)
    requires plan == trace0 + Delivery(toUpload, env.uploadErrors)
    ensures !raised ==> trace == plan && Pending(env.fault, ChatCalls(trace))
    ensures raised ==> Strikes(env.fault, plan) && trace == Before(plan, env.fault.value.call)
  {
    var calls;
    ghost var uploads := UploadEffects(toUpload, env.uploadErrors);
    assert Delivery(toUpload, env.uploadErrors) == [EditStatus(Uploading)] + (uploads + [EditStatus(Done)]);
    trace, calls, raised := Call(trace0, calls0, EditStatus(Uploading), env.fault, plan, uploads + [EditStatus(Done)]);
    if raised {
      return;
    }
    trace, calls, raised := UploadLoop(toUpload, env.uploadErrors, env.fault, trace, calls, plan, [EditStatus(Done)]);
    if raised {
      return;
    }
    trace, calls, raised := Call(trace, calls, EditStatus(Done), env.fault, plan, []);
  }

  /**
    The `try` block of the handler: gating, the argument check, the download
    and its two early failures, then the rest in `Deliver`. `raised` reports
    that a chat call raised into the outer handler.
   */
  method Transfer(m: Message, env: Env) returns (trace: seq<Effect>, raised: bool)
    ensures !raised ==> trace == Planned(m, env) && Pending(env.fault, ChatCalls(trace))
    ensures raised ==> Strikes(env.fault, Planned(m, env)) && trace == Before(Planned(m, env), env.fault.value.call)
  {
    ghost var plan := Planned(m, env);
    trace, raised := [], false;
    var calls := 0;
    if IsGroupChat(m.chatType) && !Addresses(m.text, env.botUsername) {
      return;
    }
    if |m.command| < 2 {
      trace, calls, raised := Call(trace, calls, Reply(Usage), env.fault, plan, []);
      return;
    }
    // The link m.command[1] goes to the download, whose outcome is env.download.
    assert plan == [Reply(Downloading)] + AfterDownload(env);
    trace, calls, raised := Call(trace, calls, Reply(Downloading), env.fault, plan, AfterDownload(env));
    if raised {
      return;
    }
    if env.download.DownloadFailed? {
      trace, raised := GiveUp(trace, calls, EditStatus(DownloadError(env.download.error)), env.fault, plan);
      return;
    }
    var files := env.download.files;
    if files == [] {
      trace, raised := GiveUp(trace, calls, EditStatus(NoFiles), env.fault, plan);
      return;
    }
    trace, raised := Deliver(files, env, trace, calls, plan);
  }

  /**
    The handler: the `try` block, the reply for an unexpected error, and the
    cleanup of the `finally` clause, which runs on every path.
   */
  method LeechHandler(m: Message, env: Env) returns (trace: seq<Effect>)
    ensures trace == HandlerTrace(m, env)
  {
    var raised;
    trace, raised := Transfer(m, env);
    if raised {
      trace := trace + [Reply(Unexpected(env.fault.value.error))];
    }
    trace := trace + [Cleanup];
  }
}
