/**
  What the leech handler promises, stated about its specification
  `Bot.HandlerTrace` (which `Bot.LeechHandler` is proved to produce) and
  about the size classification it relies on.
 */
module BotProperties {
  import opened Wrappers
  import opened Strings
  import opened Bot

  // ---------------------------------------------------------------------------
  // Size classification
  // ---------------------------------------------------------------------------

  /** A file of exactly 2 GiB may be uploaded; one byte more may not. */
  lemma SizeBoundary(path: string)
    ensures !IsFileTooLarge(DownloadedFile(path, 2 * 1024 * 1024 * 1024))
    ensures IsFileTooLarge(DownloadedFile(path, 2 * 1024 * 1024 * 1024 + 1))
  {
  }

  /** Every downloaded file lands in exactly one of the two lists, as often as it was downloaded. */
  lemma {:induction false} PartitionIsExact(files: seq<DownloadedFile>)
    ensures multiset(TooLarge(files)) + multiset(ToUpload(files)) == multiset(files)
  {
    if files != [] {
      var f, rest := files[0], files[1..];
      PartitionIsExact(rest);
      assert files == [f] + rest;
      assert multiset(files) == multiset{f} + multiset(rest);
      if IsFileTooLarge(f) {
        assert TooLarge(files) == [f] + TooLarge(rest) && ToUpload(files) == ToUpload(rest);
        assert multiset(TooLarge(files)) == multiset{f} + multiset(TooLarge(rest));
      } else {
        assert ToUpload(files) == [f] + ToUpload(rest) && TooLarge(files) == TooLarge(rest);
        assert multiset(ToUpload(files)) == multiset{f} + multiset(ToUpload(rest));
      }
    }
  }

  /** `xs` can be obtained from `ys` by dropping elements, keeping the order of the rest. */
  ghost predicate IsSubsequence<T>(xs: seq<T>, ys: seq<T>)
    decreases |ys|
  {
    xs == [] || (ys != [] && if xs[0] == ys[0] then IsSubsequence(xs[1..], ys[1..]) else IsSubsequence(xs, ys[1..]))
  }

  /** Both lists keep the download order. */
  lemma {:induction false} PartitionKeepsOrder(files: seq<DownloadedFile>)
    ensures IsSubsequence(TooLarge(files), files)
    ensures IsSubsequence(ToUpload(files), files)
  {
    if files != [] {
      PartitionKeepsOrder(files[1..]);
      var big, small := TooLarge(files), ToUpload(files);
      if IsFileTooLarge(files[0]) {
        assert big == [files[0]] + TooLarge(files[1..]);
        assert small == ToUpload(files[1..]);
        assert small == [] || small[0] != files[0];
      } else {
        assert small == [files[0]] + ToUpload(files[1..]);
        assert big == TooLarge(files[1..]);
        assert big == [] || big[0] != files[0];
      }
    }
  }

  /** Classifying a concatenation classifies each part in turn: the skipped list. */
  lemma {:induction false} TooLargeAppend(a: seq<DownloadedFile>, b: seq<DownloadedFile>)
    ensures TooLarge(a + b) == TooLarge(a) + TooLarge(b)
  {
    if a == [] {
      assert a + b == b;
    } else {
      var ab := a + b;
      assert ab[0] == a[0] && ab[1..] == a[1..] + b;
      TooLargeAppend(a[1..], b);
      var head := if IsFileTooLarge(a[0]) then [a[0]] else [];
      assert TooLarge(ab) == head + TooLarge(a[1..] + b);
      assert TooLarge(a) == head + TooLarge(a[1..]);
    }
  }

  /** Classifying a concatenation classifies each part in turn: the upload list. */
  lemma {:induction false} ToUploadAppend(a: seq<DownloadedFile>, b: seq<DownloadedFile>)
    ensures ToUpload(a + b) == ToUpload(a) + ToUpload(b)
  {
    if a == [] {
      assert a + b == b;
    } else {
      var ab := a + b;
      assert ab[0] == a[0] && ab[1..] == a[1..] + b;
      ToUploadAppend(a[1..], b);
      var head := if IsFileTooLarge(a[0]) then [] else [a[0]];
      assert ToUpload(ab) == head + ToUpload(a[1..] + b);
      assert ToUpload(a) == head + ToUpload(a[1..]);
    }
  }

  /** When every file fits, nothing is skipped and every file is uploaded. */
  lemma {:induction false} NothingTooLarge(files: seq<DownloadedFile>)
    requires forall k :: 0 <= k < |files| ==> !IsFileTooLarge(files[k])
    ensures TooLarge(files) == [] && ToUpload(files) == files
  {
    if files != [] {
      NothingTooLarge(files[1..]);
      assert files == [files[0]] + files[1..];
    }
  }

  /** When nothing can be uploaded, every file is in the skipped list. */
  lemma {:induction false} NothingToUploadMeansAllSkipped(files: seq<DownloadedFile>)
    requires ToUpload(files) == []
    ensures TooLarge(files) == files
  {
    if files != [] {
      NothingToUploadMeansAllSkipped(files[1..]);
      assert files == [files[0]] + files[1..];
    }
  }

  // ---------------------------------------------------------------------------
  // Facts about traces
  // ---------------------------------------------------------------------------

  /** The paths of the upload attempts in a trace, in order. */
  function Sent(t: seq<Effect>): seq<string>
  {
    if t == [] then [] else (if t[0].SendDoc? then [t[0].path] else []) + Sent(t[1..])
  }

  lemma {:induction false} SentAppend(a: seq<Effect>, b: seq<Effect>)
    ensures Sent(a + b) == Sent(a) + Sent(b)
  {
    if a == [] {
      assert a + b == b;
    } else {
      var first := if a[0].SendDoc? then [a[0].path] else [];
      assert (a + b)[0] == a[0];
      assert (a + b)[1..] == a[1..] + b;
      SentAppend(a[1..], b);
      calc {
        Sent(a + b);
        first + Sent(a[1..] + b);
        first + (Sent(a[1..]) + Sent(b));
        (first + Sent(a[1..])) + Sent(b);
        Sent(a) + Sent(b);
      }
    }
  }

  /** The number of directory resets in a trace. */
  function Cleanups(t: seq<Effect>): nat
  {
    multiset(t)[Cleanup]
  }

  /** The upload loop attempts the files in order and never resets the directory. */
  lemma {:induction false} UploadEffectsSendInOrder(files: seq<DownloadedFile>, uploadErrors: map<string, string>)
    ensures Sent(UploadEffects(files, uploadErrors)) == Paths(files)
    ensures Cleanup !in UploadEffects(files, uploadErrors)
  {
    if files != [] {
      var init := files[..|files| - 1];
      var f := files[|files| - 1];
      UploadEffectsSendInOrder(init, uploadErrors);
      SentAppend(UploadEffects(init, uploadErrors), UploadStep(f, uploadErrors));
      SentAppend([SendDoc(f.path)], UploadStep(f, uploadErrors)[1..]);
      assert UploadStep(f, uploadErrors) == [SendDoc(f.path)] + UploadStep(f, uploadErrors)[1..];
      assert Paths(files) == Paths(init) + [f.path];
    }
  }

  /** The part of a trace before a chat call is a prefix of it. */
  lemma {:induction false} BeforeIsPrefix(t: seq<Effect>, n: nat)
    ensures Before(t, n) <= t
  {
    if t != [] && !(IsChatCall(t[0]) && n == 0) {
      BeforeIsPrefix(t[1..], if IsChatCall(t[0]) then n - 1 else n);
      assert t == [t[0]] + t[1..];
    }
  }

  /** Cutting a trace before its chat call numbered `n` leaves exactly `n` chat calls. */
  lemma {:induction false} BeforeCountsCalls(t: seq<Effect>, n: nat)
    requires n < ChatCalls(t)
    ensures ChatCalls(Before(t, n)) == n
  {
    if !(IsChatCall(t[0]) && n == 0) {
      BeforeCountsCalls(t[1..], if IsChatCall(t[0]) then n - 1 else n);
    }
  }

  /** Sends and resets of a prefix are a prefix of those of the whole. */
  lemma PrefixCounts(p: seq<Effect>, t: seq<Effect>)
    requires p <= t
    ensures Sent(p) <= Sent(t)
    ensures Cleanups(p) <= Cleanups(t)
  {
    assert t == p + t[|p|..];
    SentAppend(p, t[|p|..]);
  }

  // ---------------------------------------------------------------------------
  // The handler's paths
  // ---------------------------------------------------------------------------

  /** The paths on which the `try` block itself resets the directory before returning. */
  predicate ExplicitCleanup(m: Message, env: Env)
  {
    && Addressed(m, env.botUsername)
    && |m.command| >= 2
    && (|| env.download.DownloadFailed?
        || env.download.files == []
        || ToUpload(env.download.files) == [])
  }

  lemma DeliveryCleanups(toUpload: seq<DownloadedFile>, uploadErrors: map<string, string>)
    ensures Cleanups(Delivery(toUpload, uploadErrors)) == if toUpload == [] then 1 else 0
  {
    if toUpload != [] {
      var uploads := UploadEffects(toUpload, uploadErrors);
      UploadEffectsSendInOrder(toUpload, uploadErrors);
      assert Delivery(toUpload, uploadErrors) == [EditStatus(Uploading)] + uploads + [EditStatus(Done)];
      assert multiset(uploads)[Cleanup] == 0;
    }
  }

  /** The `try` block plans at most one reset, and exactly one on the early-failure paths. */
  lemma PlannedCleanups(m: Message, env: Env)
    ensures Cleanups(Planned(m, env)) == if ExplicitCleanup(m, env) then 1 else 0
  {
    var plan := Planned(m, env);
    if Addressed(m, env.botUsername) && |m.command| >= 2 {
      assert plan == [Reply(Downloading)] + AfterDownload(env);
      match env.download
      case DownloadFailed(error) =>
        assert AfterDownload(env) == [EditStatus(DownloadError(error)), Cleanup];
      case Downloaded(files) =>
        if files != [] {
          var small := ToUpload(files);
          DeliveryCleanups(small, env.uploadErrors);
          assert AfterDownload(env) == Notice(TooLarge(files)) + Delivery(small, env.uploadErrors);
          assert Cleanups(Notice(TooLarge(files))) == 0;
        }
    }
  }

  /** On the early-failure exits the reset is the last planned effect. */
  lemma EarlyExitEndsWithReset(m: Message, env: Env)
    requires ExplicitCleanup(m, env)
    ensures var plan := Planned(m, env); |plan| > 0 && plan[|plan| - 1] == Cleanup
  {
    var plan := Planned(m, env);
    assert plan == [Reply(Downloading)] + AfterDownload(env);
    match env.download
    case DownloadFailed(error) =>
      assert AfterDownload(env) == [EditStatus(DownloadError(error)), Cleanup];
    case Downloaded(files) =>
      if files != [] {
        assert AfterDownload(env) == Notice(TooLarge(files)) + [EditStatus(AllTooLarge), Cleanup];
      }
  }

  /** Cutting before a chat call of `a` never reaches into what follows `a`. */
  lemma {:induction false} BeforeOfAppend(a: seq<Effect>, b: seq<Effect>, n: nat)
    requires n < ChatCalls(a)
    ensures Before(a + b, n) == Before(a, n)
  {
    assert (a + b)[0] == a[0];
    if !(IsChatCall(a[0]) && n == 0) {
      assert (a + b)[1..] == a[1..] + b;
      BeforeOfAppend(a[1..], b, if IsChatCall(a[0]) then n - 1 else n);
    }
  }

  /** A plan whose only reset, if any, is its last effect loses that reset when a chat call raises. */
  lemma CutCleanups(plan: seq<Effect>, n: nat)
    requires n < ChatCalls(plan)
    requires Cleanups(plan) == 0 || (Cleanups(plan) == 1 && plan != [] && plan[|plan| - 1] == Cleanup)
    ensures Cleanups(Before(plan, n)) == 0
  {
    if Cleanups(plan) == 0 {
      BeforeIsPrefix(plan, n);
      PrefixCounts(Before(plan, n), plan);
    } else {
      var init := plan[..|plan| - 1];
      assert plan == init + [Cleanup];
      assert Cleanups(init) == 0;
      ChatCallsAppend(init, [Cleanup]);
      assert ChatCalls([Cleanup]) == 0;
      BeforeOfAppend(init, [Cleanup], n);
      BeforeIsPrefix(init, n);
      PrefixCounts(Before(init, n), init);
    }
  }

  /**
    Every path ends with the reset of the `finally` clause. The early-failure
    exits reset once more before it, unless a chat call raised on the way,
    which always cuts that reset off: the trace then holds exactly one reset.
   */
  lemma CleanupOnEveryPath(m: Message, env: Env)
    ensures var t := HandlerTrace(m, env); |t| > 0 && t[|t| - 1] == Cleanup
    ensures Cleanups(HandlerTrace(m, env)) ==
      if ExplicitCleanup(m, env) && !Strikes(env.fault, Planned(m, env)) then 2 else 1
    ensures env.fault.None? ==> (Cleanups(HandlerTrace(m, env)) == 2 <==> ExplicitCleanup(m, env))
  {
    var plan := Planned(m, env);
    PlannedCleanups(m, env);
    if Strikes(env.fault, plan) {
      if ExplicitCleanup(m, env) {
        EarlyExitEndsWithReset(m, env);
      }
      CutCleanups(plan, env.fault.value.call);
    }
  }

  /** Without two tokens the handler only replies with the usage text; the download is never consulted. */
  lemma UsageError(m: Message, env: Env, download: Download, uploadErrors: map<string, string>)
    requires Addressed(m, env.botUsername) && |m.command| < 2
    ensures HandlerTrace(m, env) ==
      if env.fault.Some? && env.fault.value.call == 0
      then [Reply(Unexpected(env.fault.value.error)), Cleanup]
      else [Reply(Usage), Cleanup]
    ensures HandlerTrace(m, env) == HandlerTrace(m, env.(download := download, uploadErrors := uploadErrors))
  {
    var plan := [Reply(Usage)];
    assert Planned(m, env) == plan;
    assert Planned(m, env.(download := download, uploadErrors := uploadErrors)) == plan;
    assert plan[1..] == [];
    assert ChatCalls(plan) == 1;
    assert Before(plan, 0) == [];
  }

  /** Outside its gate the handler does nothing but the final reset. */
  lemma IgnoredInGroup(m: Message, env: Env)
    requires IsGroupChat(m.chatType)
    requires m.text.None? || !(Contains(m.text.value, "@" + env.botUsername) || "/leech" <= m.text.value)
    ensures HandlerTrace(m, env) == [Cleanup]
  {
  }

  /** A failed download is reported on the status message; nothing is sent or announced. */
  lemma DownloadFailure(m: Message, env: Env)
    requires Addressed(m, env.botUsername) && |m.command| >= 2
    requires env.download.DownloadFailed? && env.fault.None?
    ensures HandlerTrace(m, env) ==
      [Reply(Downloading), EditStatus(DownloadError(env.download.error)), Cleanup, Cleanup]
  {
  }

  /** A download that produced no file is reported on the status message, and nothing else happens. */
  lemma NoFilesFound(m: Message, env: Env)
    requires Addressed(m, env.botUsername) && |m.command| >= 2
    requires env.download == Downloaded([]) && env.fault.None?
    ensures HandlerTrace(m, env) == [Reply(Downloading), EditStatus(NoFiles), Cleanup, Cleanup]
  {
  }

  predicate IsSkippedNotice(e: Effect)
  {
    e.Reply? && e.text.Skipped?
  }

  /**
    The skipped-files notice is sent exactly when some file is too large; it
    is the first reply after the status message and names those files in order.
   */
  lemma SkippedNoticeIffTooLarge(m: Message, env: Env)
    requires Addressed(m, env.botUsername) && |m.command| >= 2
    requires env.download.Downloaded? && env.download.files != [] && env.fault.None?
    ensures (exists e :: e in HandlerTrace(m, env) && IsSkippedNotice(e)) <==> TooLarge(env.download.files) != []
    ensures TooLarge(env.download.files) != [] ==>
      HandlerTrace(m, env)[1] == Reply(Skipped(Paths(TooLarge(env.download.files))))
  {
    var files := env.download.files;
    var t := HandlerTrace(m, env);
    var notice := Notice(TooLarge(files));
    var delivery := Delivery(ToUpload(files), env.uploadErrors);
    assert AfterDownload(env) == notice + delivery;
    assert t == [Reply(Downloading)] + (notice + delivery) + [Cleanup];
    NoNoticeInDelivery(ToUpload(files), env.uploadErrors);
    if TooLarge(files) != [] {
      assert t[1] == Reply(Skipped(Paths(TooLarge(files))));
      assert IsSkippedNotice(t[1]);
    }
  }

  lemma NoNoticeInDelivery(toUpload: seq<DownloadedFile>, uploadErrors: map<string, string>)
    ensures forall e :: e in Delivery(toUpload, uploadErrors) ==> !IsSkippedNotice(e)
  {
    if toUpload != [] {
      NoNoticeInUploads(toUpload, uploadErrors);
      assert Delivery(toUpload, uploadErrors)
          == [EditStatus(Uploading)] + UploadEffects(toUpload, uploadErrors) + [EditStatus(Done)];
    }
  }

  lemma {:induction false} NoNoticeInUploads(files: seq<DownloadedFile>, uploadErrors: map<string, string>)
    ensures forall e :: e in UploadEffects(files, uploadErrors) ==> !IsSkippedNotice(e)
  {
    if files != [] {
      NoNoticeInUploads(files[..|files| - 1], uploadErrors);
    }
  }

  /** The notice's text is its header followed by the base names, one per line. */
  lemma SkippedNoticeLists(paths: seq<string>)
    requires paths != []
    requires forall k :: 0 <= k < |paths| ==> '\n' !in Basename(paths[k])
    ensures SkippedHeader <= Render(Skipped(paths))
    ensures SplitLines(Render(Skipped(paths))[|SkippedHeader|..]) == Basenames(paths)
  {
    var names := Basenames(paths);
    assert Render(Skipped(paths))[|SkippedHeader|..] == JoinLines(names);
    SplitJoinLines(names);
  }

  /**
    When every file is too large the trace is the notice naming all of them,
    then the "all too large" edit, with no upload attempt.
   */
  lemma AllTooLargeTrace(m: Message, env: Env)
    requires Addressed(m, env.botUsername) && |m.command| >= 2
    requires env.download.Downloaded? && env.download.files != [] && env.fault.None?
    requires ToUpload(env.download.files) == []
    ensures HandlerTrace(m, env) ==
      [Reply(Downloading), Reply(Skipped(Paths(env.download.files))), EditStatus(AllTooLarge), Cleanup, Cleanup]
    ensures forall e :: e in HandlerTrace(m, env) ==> !e.SendDoc?
  {
    var files := env.download.files;
    NothingToUploadMeansAllSkipped(files);
    var skipped := Reply(Skipped(Paths(files)));
    calc {
      Planned(m, env);
      [Reply(Downloading)] + (Notice(TooLarge(files)) + Delivery([], env.uploadErrors));
      [Reply(Downloading)] + ([skipped] + [EditStatus(AllTooLarge), Cleanup]);
      [Reply(Downloading), skipped, EditStatus(AllTooLarge), Cleanup];
    }
  }

  /** A trace without upload attempts sends nothing. */
  lemma {:induction false} SentNone(t: seq<Effect>)
    requires forall e :: e in t ==> !e.SendDoc?
    ensures Sent(t) == []
  {
    if t != [] {
      assert t[0] in t;
      SentNone(t[1..]);
    }
  }

  /** Without a fault, the `try` block attempts exactly the upload list and ends with the "Done" edit. */
  lemma PlannedSends(m: Message, env: Env)
    requires Addressed(m, env.botUsername) && |m.command| >= 2
    requires env.download.Downloaded? && ToUpload(env.download.files) != []
    ensures Sent(Planned(m, env)) == Paths(ToUpload(env.download.files))
    ensures var plan := Planned(m, env); |plan| > 0 && plan[|plan| - 1] == EditStatus(Done)
  {
    var files := env.download.files;
    var small := ToUpload(files);
    var head := [Reply(Downloading)] + Notice(TooLarge(files)) + [EditStatus(Uploading)];
    PlanWhenUploading(m, env);
    NoSendsBeforeUploads(TooLarge(files));
    UploadEffectsSendInOrder(small, env.uploadErrors);
    FramedSends(head, UploadEffects(small, env.uploadErrors), [EditStatus(Done)]);
  }

  /** When something can be uploaded, the plan is the prologue, the upload loop and the "Done" edit. */
  lemma PlanWhenUploading(m: Message, env: Env)
    requires Addressed(m, env.botUsername) && |m.command| >= 2
    requires env.download.Downloaded? && ToUpload(env.download.files) != []
    ensures Planned(m, env) ==
      [Reply(Downloading)] + Notice(TooLarge(env.download.files)) + [EditStatus(Uploading)]
      + UploadEffects(ToUpload(env.download.files), env.uploadErrors) + [EditStatus(Done)]
  {
    var files := env.download.files;
    var small := ToUpload(files);
    var uploads := UploadEffects(small, env.uploadErrors);
    var notice := Notice(TooLarge(files));
    assert files != [];
    calc {
      Planned(m, env);
      [Reply(Downloading)] + (notice + Delivery(small, env.uploadErrors));
      [Reply(Downloading)] + (notice + ([EditStatus(Uploading)] + uploads + [EditStatus(Done)]));
      [Reply(Downloading)] + notice + [EditStatus(Uploading)] + uploads + [EditStatus(Done)];
    }
  }

  /** Nothing before the upload loop is an upload attempt. */
  lemma NoSendsBeforeUploads(tooLarge: seq<DownloadedFile>)
    ensures forall e :: e in [Reply(Downloading)] + Notice(tooLarge) + [EditStatus(Uploading)] ==> !e.SendDoc?
  {
  }

  /** Effects around the upload attempts that are not attempts themselves add nothing to what is sent. */
  lemma FramedSends(head: seq<Effect>, middle: seq<Effect>, tail: seq<Effect>)
    requires forall e :: e in head ==> !e.SendDoc?
    requires forall e :: e in tail ==> !e.SendDoc?
    ensures Sent(head + middle + tail) == Sent(middle)
  {
    SentNone(head);
    SentNone(tail);
    SentAppend(head, middle);
    SentAppend(head + middle, tail);
  }

  /**
    Upload attempts follow the upload list exactly, whatever their outcomes,
    and the last status edit is always "Done"; a fault only cuts the attempts short.
   */
  lemma UploadsInOrder(m: Message, env: Env)
    requires Addressed(m, env.botUsername) && |m.command| >= 2
    requires env.download.Downloaded? && ToUpload(env.download.files) != []
    ensures Sent(HandlerTrace(m, env)) <= Paths(ToUpload(env.download.files))
    ensures env.fault.None? ==> Sent(HandlerTrace(m, env)) == Paths(ToUpload(env.download.files))
    ensures env.fault.None? ==> var t := HandlerTrace(m, env); |t| >= 2 && t[|t| - 2] == EditStatus(Done)
  {
    var plan := Planned(m, env);
    PlannedSends(m, env);
    if Strikes(env.fault, plan) {
      CutSends(plan, env.fault.value.call, env.fault.value.error);
    } else {
      WholeSends(plan);
    }
  }

  /** A cut trace sends a prefix of what the whole trace sends. */
  lemma CutSends(plan: seq<Effect>, n: nat, error: string)
    ensures Sent(Before(plan, n) + [Reply(Unexpected(error))] + [Cleanup]) <= Sent(plan)
  {
    var cut, coda := Before(plan, n), [Reply(Unexpected(error)), Cleanup];
    assert cut + [Reply(Unexpected(error))] + [Cleanup] == cut + coda;
    BeforeIsPrefix(plan, n);
    PrefixCounts(cut, plan);
    SentNone(coda);
    SentAppend(cut, coda);
  }

  /** The final reset adds no send, and the last planned effect comes just before it. */
  lemma WholeSends(plan: seq<Effect>)
    ensures Sent(plan + [Cleanup]) == Sent(plan)
    ensures plan != [] ==> (plan + [Cleanup])[|plan| - 1] == plan[|plan| - 1]
  {
    SentNone([Cleanup]);
    SentAppend(plan, [Cleanup]);
  }

  /** The element `i` of the middle part of a concatenation. */
  lemma ElementOfJoin<T>(a: seq<T>, b: seq<T>, c: seq<T>, i: nat)
    requires i < |b|
    ensures |a| + i < |a + b + c| && (a + b + c)[|a| + i] == b[i]
  {
  }

  /**
    In the upload loop, each file's attempt comes right after the effects of
    the files before it. It is followed by its failure reply exactly when the
    send raised: after a send that succeeded comes the next file's attempt,
    or the end of the loop.
   */
  lemma FailedUploadIsReported(files: seq<DownloadedFile>, uploadErrors: map<string, string>, k: nat)
    requires k < |files|
    ensures var u, p := UploadEffects(files, uploadErrors), |UploadEffects(files[..k], uploadErrors)|;
      && p < |u| && u[p] == SendDoc(files[k].path)
      && (files[k].path in uploadErrors ==>
            p + 1 < |u| && u[p + 1] == Reply(UploadError(files[k].path, uploadErrors[files[k].path])))
      && (files[k].path !in uploadErrors ==>
            if k + 1 < |files| then p + 1 < |u| && u[p + 1] == SendDoc(files[k + 1].path)
            else p + 1 == |u|)
    decreases |files| - k
  {
    var before, step, later := UploadEffects(files[..k], uploadErrors), UploadStep(files[k], uploadErrors), UploadEffects(files[k + 1..], uploadErrors);
    UploadEffectsSplit(files, k, uploadErrors);
    ElementOfJoin(before, step, later, 0);
    if files[k].path in uploadErrors {
      ElementOfJoin(before, step, later, 1);
    } else if k + 1 < |files| {
      UploadEffectsSnoc(files, k, uploadErrors);
      FailedUploadIsReported(files, uploadErrors, k + 1);
    } else {
      assert files[k + 1..] == [];
    }
  }

  /** After a file's attempt and its failure reply, if any, the loop goes on with the next file's attempt. */
  lemma UploadLoopGoesOn(files: seq<DownloadedFile>, uploadErrors: map<string, string>, k: nat)
    requires k + 1 < |files|
    ensures var u, q := UploadEffects(files, uploadErrors), |UploadEffects(files[..k], uploadErrors)| + |UploadStep(files[k], uploadErrors)|;
      q < |u| && u[q] == SendDoc(files[k + 1].path)
  {
    UploadEffectsSnoc(files, k, uploadErrors);
    FailedUploadIsReported(files, uploadErrors, k + 1);
  }

  /**
    A chat call that raises cuts the trace: what came before it is a prefix of
    the fault-free trace holding exactly that many chat calls, then come the
    unexpected-error reply and the reset. A fault past the last call changes nothing.
   */
  lemma FaultCutsTrace(m: Message, env: Env)
    requires env.fault.Some?
    ensures var t, t0 := HandlerTrace(m, env), HandlerTrace(m, env.(fault := None));
      if env.fault.value.call < ChatCalls(Planned(m, env)) then
        && |t| >= 2
        && t[..|t| - 2] <= t0
        && ChatCalls(t[..|t| - 2]) == env.fault.value.call
        && t[|t| - 2] == Reply(Unexpected(env.fault.value.error))
        && t[|t| - 1] == Cleanup
      else t == t0
  {
    var plan := Planned(m, env);
    assert plan == Planned(m, env.(fault := None));
    var t := HandlerTrace(m, env);
    if env.fault.value.call < ChatCalls(plan) {
      var cut := Before(plan, env.fault.value.call);
      BeforeIsPrefix(plan, env.fault.value.call);
      BeforeCountsCalls(plan, env.fault.value.call);
      assert t[..|t| - 2] == cut;
    }
  }

  // ---------------------------------------------------------------------------
  // Scenarios
  // ---------------------------------------------------------------------------

  /** Three small files, the second send fails: all three are attempted and only the second is reported. */
  lemma SecondOfThreeFails(m: Message, user: string)
    requires Addressed(m, user) && |m.command| >= 2
    ensures
      var a, b, c := DownloadedFile("a", 1), DownloadedFile("b", 2), DownloadedFile("c", 3);
      HandlerTrace(m, Env(user, Downloaded([a, b, c]), map["b" := "E"], None)) ==
        [Reply(Downloading), EditStatus(Uploading),
         SendDoc("a"), SendDoc("b"), Reply(UploadError("b", "E")), SendDoc("c"),
         EditStatus(Done), Cleanup]
  {
    SecondOfThreePlan(m, user);
  }

  /** The `try` block of that scenario. */
  lemma SecondOfThreePlan(m: Message, user: string)
    requires Addressed(m, user) && |m.command| >= 2
    ensures
      var a, b, c := DownloadedFile("a", 1), DownloadedFile("b", 2), DownloadedFile("c", 3);
      Planned(m, Env(user, Downloaded([a, b, c]), map["b" := "E"], None)) ==
        [Reply(Downloading), EditStatus(Uploading)]
        + [SendDoc("a"), SendDoc("b"), Reply(UploadError("b", "E")), SendDoc("c")]
        + [EditStatus(Done)]
  {
    var a, b, c := DownloadedFile("a", 1), DownloadedFile("b", 2), DownloadedFile("c", 3);
    var files := [a, b, c];
    var env := Env(user, Downloaded(files), map["b" := "E"], None);
    var uploads := [SendDoc("a"), SendDoc("b"), Reply(UploadError("b", "E")), SendDoc("c")];
    var errs := env.uploadErrors;
    calc {
      Planned(m, env);
      { NothingTooLarge(files); PlanWhenUploading(m, env); }
      [Reply(Downloading)] + Notice(TooLarge(files)) + [EditStatus(Uploading)] + UploadEffects(ToUpload(files), errs) + [EditStatus(Done)];
      { NothingTooLarge(files); }
      [Reply(Downloading)] + Notice([]) + [EditStatus(Uploading)] + UploadEffects(files, errs) + [EditStatus(Done)];
      { SecondOfThreeUploads(); }
      [Reply(Downloading)] + [] + [EditStatus(Uploading)] + uploads + [EditStatus(Done)];
      [Reply(Downloading), EditStatus(Uploading)] + uploads + [EditStatus(Done)];
    }
  }

  /** The upload loop of that scenario. */
  lemma SecondOfThreeUploads()
    ensures
      var a, b, c := DownloadedFile("a", 1), DownloadedFile("b", 2), DownloadedFile("c", 3);
      UploadEffects([a, b, c], map["b" := "E"]) ==
        [SendDoc("a"), SendDoc("b"), Reply(UploadError("b", "E")), SendDoc("c")]
  {
    var a, b, c := DownloadedFile("a", 1), DownloadedFile("b", 2), DownloadedFile("c", 3);
    var errs := map["b" := "E"];
    assert [a, b, c][..2] == [a, b] && [a, b][..1] == [a] && [a][..0] == [];
    assert UploadEffects([a], errs) == [SendDoc("a")];
    assert UploadEffects([a, b], errs) == [SendDoc("a"), SendDoc("b"), Reply(UploadError("b", "E"))];
  }

  /** One file of 3 GiB: it is named in the notice, nothing is sent, and the status says all are too large. */
  lemma OneOversizedFile(m: Message, user: string, path: string)
    requires Addressed(m, user) && |m.command| >= 2
    ensures
      var f := DownloadedFile(path, 3 * 1024 * 1024 * 1024);
      HandlerTrace(m, Env(user, Downloaded([f]), map[], None)) ==
        [Reply(Downloading), Reply(Skipped([path])), EditStatus(AllTooLarge), Cleanup, Cleanup]
  {
    var f := DownloadedFile(path, 3 * 1024 * 1024 * 1024);
    assert TooLarge([f]) == [f];
    assert ToUpload([f]) == [];
    assert Paths([f]) == [path];
  }
}
