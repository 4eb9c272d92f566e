/**
 The semantic memory index (pkg/agent/memory_vector.go): documents cut from memory files, embedded
 one by one, cached in memory and on disk under a fingerprint of the files, and rebuilt with the
 embeddings that can be reused.
 */
module VectorIndex {
  import opened Text
  import opened Wrappers

  type Vector = seq<real>

  /** What the file system tells of a file without reading it. */
  datatype Stamp = Stamp(relPath: string, size: nat, modUnix: int)

  datatype File = File(stamp: Stamp, content: string)

  datatype Draft = Draft(id: string, source: string, text: string)

  datatype Document = Document(id: string, source: string, text: string, vector: Vector)

  /** A fingerprint is a hash of the embedder signature and the stamps, taken to be free of collisions. */
  datatype Fingerprint = Fingerprint(signature: string, stamps: seq<Stamp>)

  datatype Index = Index(fingerprint: Fingerprint, signature: string, dimensions: nat, documents: seq<Document>)

  /** The main memory file and the daily notes, today's first. */
  datatype Files = Files(memory: Option<File>, daily: seq<Option<File>>)

  datatype Settings = Settings(recentDays: int, other: string)

  /**
   What the index is built on: how a file is cut into drafts, an embedder that is deterministic for
   each signature, and the text that belongs to a draft id.
   */
  datatype Tools = Tools(
    cut: (string, string) -> seq<Draft>, embed: (string, string) -> Vector, textOf: string -> string)

  datatype State = State(
    files: Files, settings: Settings, embedder: Option<string>, cache: Option<Index>, disk: Option<Index>)

  datatype Event =
    | Edit(files: Files)
    | SetSettings(settings: Settings, embedder: Option<string>)
    | MarkDirty
    | Restart
    | LoseDisk
    | Ensure(works: bool)
    | Rebuild(works: bool)

  const DEFAULT_DAYS := 14

  // ------------------------------------------------------------------ from files to documents

  function Daily(daily: seq<Option<File>>, days: nat): seq<File> {
    if days == 0 || daily == [] then []
    else (if daily[0].Some? then [daily[0].value] else []) + Daily(daily[1..], days - 1)
  }

  function Normalize(settings: Settings): (r: Settings)
    ensures r.recentDays > 0
  {
    if settings.recentDays <= 0 then settings.(recentDays := DEFAULT_DAYS) else settings
  }

  function Collect(files: Files, days: int): seq<File> {
    (if files.memory.Some? then [files.memory.value] else []) + Daily(files.daily, if days < 0 then 0 else days)
  }

  function Stamps(files: seq<File>): seq<Stamp> {
    if files == [] then [] else [files[0].stamp] + Stamps(files[1..])
  }

  function Signature(embedder: Option<string>): string { if embedder.Some? then embedder.value else "" }

  function Print(files: seq<File>, embedder: Option<string>): Fingerprint {
    Fingerprint(TrimSpace(Signature(embedder)), Stamps(files))
  }

  function Drafts(tools: Tools, files: seq<File>): seq<Draft> {
    if files == [] then []
    else Drafts(tools, files[..|files| - 1]) + Cut(tools, files[|files| - 1])
  }

  function Cut(tools: Tools, file: File): seq<Draft> {
    if TrimSpace(file.content) == "" then [] else tools.cut(file.stamp.relPath, file.content)
  }

  function Embedded(tools: Tools, signature: string, draft: Draft): Document {
    Document(draft.id, draft.source, draft.text, tools.embed(signature, draft.text))
  }

  /** The reference: every draft embedded afresh. */
  function FromScratch(tools: Tools, drafts: seq<Draft>, signature: string): seq<Document> {
    if drafts == [] then [] else [Embedded(tools, signature, drafts[0])] + FromScratch(tools, drafts[1..], signature)
  }

  function Dimensions(documents: seq<Document>): nat {
    if documents == [] then 0
    else if documents[0].vector != [] then |documents[0].vector|
    else Dimensions(documents[1..])
  }

  // ------------------------------------------------------------------ reuse

  function Reusable(documents: seq<Document>): map<string, Vector> {
    if documents == [] then map[]
    else
      var before, last := Reusable(documents[..|documents| - 1]), documents[|documents| - 1];
      if last.id == "" || last.vector == [] then before else before[last.id := last.vector]
  }

  /** What may be reused for a signature; a blank one matches nothing. */
  function ReuseFor(disk: Option<Index>, embedder: Option<string>): map<string, Vector> {
    var want := Signature(embedder);
    if disk.Some? && TrimSpace(want) != "" && disk.value.signature == want then Reusable(disk.value.documents)
    else map[]
  }

  predicate Covers(reuse: map<string, Vector>, draft: Draft) { draft.id in reuse && reuse[draft.id] != [] }

  function Unfilled(draft: Draft): Document { Document(draft.id, draft.source, draft.text, []) }

  function Filled(tools: Tools, reuse: map<string, Vector>, signature: string, draft: Draft): Document {
    if Covers(reuse, draft)
    then Document(draft.id, draft.source, draft.text, reuse[draft.id])
    else Embedded(tools, signature, draft)
  }

  function FilledAll(tools: Tools, reuse: map<string, Vector>, signature: string, drafts: seq<Draft>): seq<Document> {
    if drafts == [] then []
    else [Filled(tools, reuse, signature, drafts[0])] + FilledAll(tools, reuse, signature, drafts[1..])
  }

  /** Some draft has no reusable embedding. */
  predicate NeedsEmbedding(reuse: map<string, Vector>, drafts: seq<Draft>) {
    exists i :: 0 <= i < |drafts| && !Covers(reuse, drafts[i])
  }

  // ------------------------------------------------------------------ steps

  /** A rebuild succeeds: there is an embedder, and it works unless nothing is left to embed. */
  predicate Rebuilds(tools: Tools, s: State, works: bool) {
    s.embedder.Some? &&
    (works || !NeedsEmbedding(ReuseFor(s.disk, s.embedder), Drafts(tools, Collect(s.files, s.settings.recentDays))))
  }

  function NextIndex(tools: Tools, s: State): Index
    requires s.embedder.Some?
  {
    var files := Collect(s.files, s.settings.recentDays);
    var documents := FilledAll(tools, ReuseFor(s.disk, s.embedder), TrimSpace(s.embedder.value), Drafts(tools, files));
    Index(Print(files, s.embedder), s.embedder.value, Dimensions(documents), documents)
  }

  /** A rebuild that fails changes nothing. */
  function RebuildStep(tools: Tools, s: State, works: bool): State {
    if Rebuilds(tools, s, works) then s.(cache := Some(NextIndex(tools, s)), disk := Some(NextIndex(tools, s))) else s
  }

  predicate Fits(index: Option<Index>, s: State) {
    index.Some? && index.value.fingerprint == Print(Collect(s.files, s.settings.recentDays), s.embedder)
  }

  function EnsureStep(tools: Tools, s: State, works: bool): State {
    if Fits(s.cache, s) then s
    else if Fits(s.disk, s) then s.(cache := s.disk)
    else RebuildStep(tools, s, works)
  }

  function SettingsStep(s: State, settings: Settings, embedder: Option<string>): State {
    var normal := Normalize(settings);
    s.(settings := normal, embedder := embedder,
       cache := if s.settings != normal || Signature(s.embedder) != Signature(embedder) then None else s.cache)
  }

  function Step(tools: Tools, s: State, event: Event): State {
    match event
    case Edit(files) => s.(files := files)
    case SetSettings(settings, embedder) => SettingsStep(s, settings, embedder)
    case MarkDirty => s.(cache := None)
    case Restart => s.(cache := None)
    case LoseDisk => s.(disk := None)
    case Ensure(works) => EnsureStep(tools, s, works)
    case Rebuild(works) => RebuildStep(tools, s, works)
  }

  /** Making sure of the index succeeds. */
  predicate Ensures(tools: Tools, s: State, works: bool) {
    Fits(s.cache, s) || Fits(s.disk, s) || Rebuilds(tools, s, works)
  }

  function Run(tools: Tools, start: Settings, embedder: Option<string>, events: seq<Event>): State {
    if events == [] then State(Files(None, []), Normalize(start), embedder, None, None)
    else Step(tools, Run(tools, start, embedder, events[..|events| - 1]), events[|events| - 1])
  }

  // ------------------------------------------------------------------ what is assumed

  /** Draft ids do not collide: an id belongs to one text. */
  ghost predicate Collisionless(tools: Tools) {
    forall path, content, i ::
      0 <= i < |tools.cut(path, content)| ==>
        tools.cut(path, content)[i].text == tools.textOf(tools.cut(path, content)[i].id)
  }

  /** A file whose content is the one that belongs to its stamp. */
  ghost predicate Telling(contentOf: Stamp -> string, file: Option<File>) {
    file.Some? ==> file.value.content == contentOf(file.value.stamp)
  }

  /** Stamps tell contents apart: every edit leaves files of this kind. */
  ghost predicate TellingFiles(contentOf: Stamp -> string, files: Files) {
    Telling(contentOf, files.memory) && forall i :: 0 <= i < |files.daily| ==> Telling(contentOf, files.daily[i])
  }

  ghost predicate TellingRun(contentOf: Stamp -> string, events: seq<Event>) {
    forall event :: event in events && event.Edit? ==> TellingFiles(contentOf, event.files)
  }

  function FilesOf(contentOf: Stamp -> string, stamps: seq<Stamp>): seq<File> {
    if stamps == [] then [] else [File(stamps[0], contentOf(stamps[0]))] + FilesOf(contentOf, stamps[1..])
  }

  // ------------------------------------------------------------------ reused embeddings are the right ones

  /** Every document has the text of its id and the embedding of its text. */
  ghost predicate Right(tools: Tools, signature: string, documents: seq<Document>) {
    forall i :: 0 <= i < |documents| ==>
      && documents[i].text == tools.textOf(documents[i].id)
      && documents[i].vector == tools.embed(signature, documents[i].text)
  }

  ghost predicate RightReuse(tools: Tools, signature: string, reuse: map<string, Vector>) {
    forall id :: id in reuse ==> reuse[id] == tools.embed(signature, tools.textOf(id))
  }

  ghost predicate RightTexts(tools: Tools, drafts: seq<Draft>) {
    forall i :: 0 <= i < |drafts| ==> drafts[i].text == tools.textOf(drafts[i].id)
  }

  lemma {:induction false} ReusableRight(tools: Tools, signature: string, documents: seq<Document>)
    requires Right(tools, signature, documents)
    ensures RightReuse(tools, signature, Reusable(documents))
  {
    if documents != [] {
      ReusableRight(tools, signature, documents[..|documents| - 1]);
    }
  }

  lemma {:induction false} DraftsRight(tools: Tools, files: seq<File>)
    requires Collisionless(tools)
    ensures RightTexts(tools, Drafts(tools, files))
  {
    if files != [] {
      DraftsRight(tools, files[..|files| - 1]);
      var file := files[|files| - 1];
      assert RightTexts(tools, tools.cut(file.stamp.relPath, file.content));
    }
  }

  /** Filling in what can be reused gives what embedding everything afresh gives. */
  lemma {:induction false} ReuseIsFromScratch(
      tools: Tools, reuse: map<string, Vector>, signature: string, drafts: seq<Draft>)
    requires RightReuse(tools, signature, reuse) && RightTexts(tools, drafts)
    ensures FilledAll(tools, reuse, signature, drafts) == FromScratch(tools, drafts, signature)
    ensures Right(tools, signature, FromScratch(tools, drafts, signature))
  {
    if drafts != [] {
      assert drafts[0].text == tools.textOf(drafts[0].id);
      ReuseIsFromScratch(tools, reuse, signature, drafts[1..]);
    }
  }

  // ------------------------------------------------------------------ every run

  ghost predicate Honest(tools: Tools, index: Index) {
    && index.fingerprint.signature == TrimSpace(index.signature)
    && Right(tools, index.fingerprint.signature, index.documents)
  }

  /** The index holds what its fingerprint stands for. */
  ghost predicate Faithful(tools: Tools, contentOf: Stamp -> string, index: Index) {
    var drafts := Drafts(tools, FilesOf(contentOf, index.fingerprint.stamps));
    index.documents == FromScratch(tools, drafts, index.fingerprint.signature)
  }

  ghost predicate HonestState(tools: Tools, s: State) {
    && (s.cache.Some? ==> Honest(tools, s.cache.value))
    && (s.disk.Some? ==> Honest(tools, s.disk.value))
  }

  ghost predicate FaithfulState(tools: Tools, contentOf: Stamp -> string, s: State) {
    && TellingFiles(contentOf, s.files)
    && (s.cache.Some? ==> Faithful(tools, contentOf, s.cache.value))
    && (s.disk.Some? ==> Faithful(tools, contentOf, s.disk.value))
  }

  /** The documents that embedding everything from scratch gives in a state. */
  function Wanted(tools: Tools, s: State): seq<Document> {
    FromScratch(tools, Drafts(tools, Collect(s.files, s.settings.recentDays)), TrimSpace(Signature(s.embedder)))
  }

  /** A rebuild is right whatever the stamps tell: it reads the files and reuses by id only. */
  lemma {:induction false} RebuildIsRight(tools: Tools, s: State, works: bool)
    requires Collisionless(tools) && HonestState(tools, s)
    ensures var s' := RebuildStep(tools, s, works);
            && HonestState(tools, s')
            && (Rebuilds(tools, s, works) ==>
                  && s'.cache.Some? && s'.disk == s'.cache && Fits(s'.cache, s)
                  && s'.cache.value.documents == Wanted(tools, s)
                  && s'.cache.value.dimensions == Dimensions(Wanted(tools, s)))
            && (!Rebuilds(tools, s, works) ==> s' == s)
  {
    if Rebuilds(tools, s, works) {
      var drafts := Drafts(tools, Collect(s.files, s.settings.recentDays));
      var signature := TrimSpace(s.embedder.value);
      DraftsRight(tools, Collect(s.files, s.settings.recentDays));
      if s.disk.Some? {
        ReusableRight(tools, s.disk.value.fingerprint.signature, s.disk.value.documents);
      }
      ReuseIsFromScratch(tools, ReuseFor(s.disk, s.embedder), signature, drafts);
    }
  }

  /** The works flag of an event that may rebuild. */
  function Works(event: Event): bool { (event.Ensure? || event.Rebuild?) && event.works }

  predicate OneOf(index: Option<Index>, s: State, rebuilt: State) {
    index == None || index == s.cache || index == s.disk || index == rebuilt.cache || index == rebuilt.disk
  }

  /** Every index that a step leaves is one it found or the one it rebuilt. */
  lemma {:induction false} StepOrigins(tools: Tools, s: State, event: Event, rebuilt: State)
    requires rebuilt == RebuildStep(tools, s, Works(event))
    ensures var s' := Step(tools, s, event);
            && OneOf(s'.cache, s, rebuilt) && OneOf(s'.disk, s, rebuilt)
            && s'.files == if event.Edit? then event.files else s.files
  {
    match event
    case Edit(_) =>
    case SetSettings(_, _) =>
    case MarkDirty =>
    case Restart =>
    case LoseDisk =>
    case Ensure(works) => assert Step(tools, s, event) in {s, s.(cache := s.disk), rebuilt};
    case Rebuild(works) => assert Step(tools, s, event) == rebuilt;
  }

  lemma {:induction false} StepHonest(tools: Tools, s: State, event: Event)
    requires Collisionless(tools) && HonestState(tools, s)
    ensures HonestState(tools, Step(tools, s, event))
  {
    StepOrigins(tools, s, event, RebuildStep(tools, s, Works(event)));
    RebuildIsRight(tools, s, Works(event));
  }

  lemma {:induction false} RunHonest(tools: Tools, start: Settings, embedder: Option<string>, events: seq<Event>)
    requires Collisionless(tools)
    ensures HonestState(tools, Run(tools, start, embedder, events))
  {
    if events != [] {
      RunHonest(tools, start, embedder, events[..|events| - 1]);
      StepHonest(tools, Run(tools, start, embedder, events[..|events| - 1]), events[|events| - 1]);
    }
  }

  lemma {:induction false} TellingCons(contentOf: Stamp -> string, file: Option<File>, rest: seq<File>)
    requires Telling(contentOf, file) && FilesOf(contentOf, Stamps(rest)) == rest
    ensures var files := (if file.Some? then [file.value] else []) + rest;
            FilesOf(contentOf, Stamps(files)) == files
  {
    if file.Some? {
      var files := [file.value] + rest;
      assert files[1..] == rest;
      assert Stamps(files) == [file.value.stamp] + Stamps(rest);
      assert Stamps(files)[1..] == Stamps(rest);
    } else {
      assert [] + rest == rest;
    }
  }

  lemma {:induction false} TellingDaily(contentOf: Stamp -> string, daily: seq<Option<File>>, days: nat)
    requires forall i :: 0 <= i < |daily| ==> Telling(contentOf, daily[i])
    ensures FilesOf(contentOf, Stamps(Daily(daily, days))) == Daily(daily, days)
  {
    if days > 0 && daily != [] {
      assert Telling(contentOf, daily[0]);
      TellingDaily(contentOf, daily[1..], days - 1);
      TellingCons(contentOf, daily[0], Daily(daily[1..], days - 1));
    }
  }

  /** The stamps of the collected files tell their contents. */
  lemma {:induction false} TellingCollect(contentOf: Stamp -> string, files: Files, days: int)
    requires TellingFiles(contentOf, files)
    ensures FilesOf(contentOf, Stamps(Collect(files, days))) == Collect(files, days)
  {
    TellingDaily(contentOf, files.daily, if days < 0 then 0 else days);
    TellingCons(contentOf, files.memory, Daily(files.daily, if days < 0 then 0 else days));
  }

  lemma {:induction false} RebuildFaithful(tools: Tools, contentOf: Stamp -> string, s: State, works: bool)
    requires Collisionless(tools) && HonestState(tools, s) && FaithfulState(tools, contentOf, s)
    ensures FaithfulState(tools, contentOf, RebuildStep(tools, s, works))
  {
    TellingCollect(contentOf, s.files, s.settings.recentDays);
    RebuildIsRight(tools, s, works);
  }

  lemma {:induction false} StepFaithful(tools: Tools, contentOf: Stamp -> string, s: State, event: Event)
    requires Collisionless(tools) && HonestState(tools, s) && FaithfulState(tools, contentOf, s)
    requires event.Edit? ==> TellingFiles(contentOf, event.files)
    ensures FaithfulState(tools, contentOf, Step(tools, s, event))
  {
    StepOrigins(tools, s, event, RebuildStep(tools, s, Works(event)));
    RebuildFaithful(tools, contentOf, s, Works(event));
  }

  lemma {:induction false} RunFaithful(
      tools: Tools, contentOf: Stamp -> string, start: Settings, embedder: Option<string>, events: seq<Event>)
    requires Collisionless(tools) && TellingRun(contentOf, events)
    ensures FaithfulState(tools, contentOf, Run(tools, start, embedder, events))
  {
    if events != [] {
      RunFaithful(tools, contentOf, start, embedder, events[..|events| - 1]);
      RunHonest(tools, start, embedder, events[..|events| - 1]);
      StepFaithful(tools, contentOf, Run(tools, start, embedder, events[..|events| - 1]), events[|events| - 1]);
    }
  }

  /**
   After any run of edits, settings changes and failures an index that is made sure of holds exactly
   the documents and vectors of embedding everything from scratch.
   */
  lemma {:induction false} EnsuredIsFromScratch(
      tools: Tools, contentOf: Stamp -> string, start: Settings, embedder: Option<string>, events: seq<Event>,
      works: bool)
    requires Collisionless(tools) && TellingRun(contentOf, events)
    requires Ensures(tools, Run(tools, start, embedder, events), works)
    ensures var s := Run(tools, start, embedder, events);
            var s' := EnsureStep(tools, s, works);
            s'.cache.Some? && s'.cache.value.documents == Wanted(tools, s)
  {
    var s := Run(tools, start, embedder, events);
    RunHonest(tools, start, embedder, events);
    RunFaithful(tools, contentOf, start, embedder, events);
    TellingCollect(contentOf, s.files, s.settings.recentDays);
    RebuildIsRight(tools, s, works);
  }

  /** A rebuild asked for needs no assumption on stamps. */
  lemma {:induction false} RebuiltIsFromScratch(
      tools: Tools, start: Settings, embedder: Option<string>, events: seq<Event>, works: bool)
    requires Collisionless(tools) && Rebuilds(tools, Run(tools, start, embedder, events), works)
    ensures var s := Run(tools, start, embedder, events);
            var s' := RebuildStep(tools, s, works);
            s'.cache.Some? && s'.cache.value.documents == Wanted(tools, s)
  {
    RunHonest(tools, start, embedder, events);
    RebuildIsRight(tools, Run(tools, start, embedder, events), works);
  }

  // ------------------------------------------------------------------ when an answer is right

  /** Making sure of the index succeeds, and what it then holds is what embedding everything afresh gives. */
  predicate AnswersRight(tools: Tools, s: State, works: bool) {
    var s' := EnsureStep(tools, s, works);
    Ensures(tools, s, works) && s'.cache.Some? && s'.cache.value.documents == Wanted(tools, s)
  }

  function DraftsOf(documents: seq<Document>): seq<Draft> {
    if documents == [] then []
    else [Draft(documents[0].id, documents[0].source, documents[0].text)] + DraftsOf(documents[1..])
  }

  /** The drafts can be read off the documents, so different drafts give different documents. */
  lemma {:induction false} DraftsRead(tools: Tools, drafts: seq<Draft>, signature: string)
    ensures DraftsOf(FromScratch(tools, drafts, signature)) == drafts
  {
    if drafts != [] {
      DraftsRead(tools, drafts[1..], signature);
      var documents := FromScratch(tools, drafts, signature);
      assert documents[1..] == FromScratch(tools, drafts[1..], signature);
      assert drafts == [drafts[0]] + drafts[1..];
    }
  }

  /** Right documents are those of their own drafts. */
  lemma {:induction false} RightIsFromScratch(tools: Tools, signature: string, documents: seq<Document>)
    requires Right(tools, signature, documents)
    ensures documents == FromScratch(tools, DraftsOf(documents), signature)
  {
    if documents != [] {
      var rest := documents[1..];
      assert forall i :: 0 <= i < |rest| ==> rest[i] == documents[i + 1];
      RightIsFromScratch(tools, signature, rest);
      var drafts := DraftsOf(documents);
      assert drafts[1..] == DraftsOf(rest);
      assert documents[0] == Embedded(tools, signature, drafts[0]);
    }
  }

  function DraftsNow(tools: Tools, s: State): seq<Draft> { Drafts(tools, Collect(s.files, s.settings.recentDays)) }

  lemma {:induction false} FittingRightIff(tools: Tools, s: State, index: Index)
    requires Honest(tools, index) && Fits(Some(index), s)
    ensures index.documents == Wanted(tools, s) <==> DraftsOf(index.documents) == DraftsNow(tools, s)
  {
    RightIsFromScratch(tools, index.fingerprint.signature, index.documents);
    DraftsRead(tools, DraftsNow(tools, s), TrimSpace(Signature(s.embedder)));
  }

  /**
   In every reachable state, with no assumption on stamps: an index that fits is served as it is, and
   is right exactly when its texts are those of the files now; otherwise the answer is right exactly
   when the rebuild succeeds.
   */
  lemma {:induction false} AnswersRightIff(
      tools: Tools, start: Settings, embedder: Option<string>, events: seq<Event>, works: bool)
    requires Collisionless(tools)
    ensures var s := Run(tools, start, embedder, events);
            AnswersRight(tools, s, works) <==>
              if Fits(s.cache, s) then DraftsOf(s.cache.value.documents) == DraftsNow(tools, s)
              else if Fits(s.disk, s) then DraftsOf(s.disk.value.documents) == DraftsNow(tools, s)
              else Rebuilds(tools, s, works)
  {
    var s := Run(tools, start, embedder, events);
    RunHonest(tools, start, embedder, events);
    if Fits(s.cache, s) {
      FittingRightIff(tools, s, s.cache.value);
    } else if Fits(s.disk, s) {
      FittingRightIff(tools, s, s.disk.value);
    } else {
      RebuildIsRight(tools, s, works);
    }
  }

  lemma {:induction false} EditedRun(
      tools: Tools, start: Settings, embedder: Option<string>, events: seq<Event>, files: Files)
    ensures Run(tools, start, embedder, events + [Edit(files), MarkDirty]) ==
            Run(tools, start, embedder, events).(files := files, cache := None)
  {
    var one := events + [Edit(files)];
    assert one[..|events|] == events;
    assert (events + [Edit(files), MarkDirty])[..|one|] == one;
  }

  /**
   After an edit, from a reachable state whose index on disk is right: marking the index dirty drops
   the cache, not the copy on disk. When size or second of some file changed the answer is right
   exactly when the rebuild succeeds; when none did, exactly when the drafts are the same.
   */
  lemma {:induction false} UnstampedEditIff(
      tools: Tools, start: Settings, embedder: Option<string>, events: seq<Event>, files: Files, works: bool)
    requires Collisionless(tools)
    requires var s := Run(tools, start, embedder, events);
             Fits(s.disk, s) && s.disk.value.documents == Wanted(tools, s)
    ensures var s := Run(tools, start, embedder, events);
            var edited := Run(tools, start, embedder, events + [Edit(files), MarkDirty]);
            var before, after := Collect(s.files, s.settings.recentDays), Collect(files, s.settings.recentDays);
            AnswersRight(tools, edited, works) <==>
              if Stamps(before) == Stamps(after) then Drafts(tools, before) == Drafts(tools, after)
              else Rebuilds(tools, edited, works)
  {
    var s := Run(tools, start, embedder, events);
    EditedRun(tools, start, embedder, events, files);
    AnswersRightIff(tools, start, embedder, events + [Edit(files), MarkDirty], works);
    DraftsRead(tools, DraftsNow(tools, s), TrimSpace(Signature(s.embedder)));
  }

  /** Every file is one draft. */
  const WHOLE_FILES: Tools :=
    Tools((path: string, content: string) => [Draft(content, path, content)],
          (signature: string, text: string) => [1.0],
          (id: string) => id)

  function OneFile(content: string): Files { Files(Some(File(Stamp("MEMORY.md", |content|, 0), content)), []) }

  lemma {:induction false} RunOne(tools: Tools, start: Settings, embedder: Option<string>, event: Event)
    ensures Run(tools, start, embedder, [event]) ==
            Step(tools, State(Files(None, []), Normalize(start), embedder, None, None), event)
  {
    assert [event][..0] == [];
  }

  function Noted(content: string): seq<Event> { [Edit(OneFile(content))] }

  /** The first index built over a note is right and on disk. */
  lemma {:induction false} FirstBuild(start: Settings, content: string)
    requires Collisionless(WHOLE_FILES)
    ensures var s := Run(WHOLE_FILES, start, Some("hashed"), Noted(content) + [Ensure(true)]);
            Fits(s.disk, s) && s.disk.value.documents == Wanted(WHOLE_FILES, s) && s.files == OneFile(content)
  {
    var built := Noted(content) + [Ensure(true)];
    assert built[..1] == Noted(content);
    var s0 := Run(WHOLE_FILES, start, Some("hashed"), Noted(content));
    RunOne(WHOLE_FILES, start, Some("hashed"), Edit(OneFile(content)));
    RunHonest(WHOLE_FILES, start, Some("hashed"), Noted(content));
    RebuildIsRight(WHOLE_FILES, s0, true);
    assert Run(WHOLE_FILES, start, Some("hashed"), built) == Step(WHOLE_FILES, s0, Ensure(true));
  }

  lemma {:induction false} OneDraft(content: string, days: int)
    requires TrimSpace(content) == content != ""
    ensures var files := Collect(OneFile(content), days);
            && Stamps(files) == [Stamp("MEMORY.md", |content|, 0)]
            && Drafts(WHOLE_FILES, files) == [Draft(content, "MEMORY.md", content)]
  {
    var file := OneFile(content).memory.value;
    assert Collect(OneFile(content), days) == [file];
    assert [file][..0] == [] && [file][1..] == [];
    assert Stamps([file][1..]) == [];
  }

  /** One note replaced by another of the same size within the second: the old one is served. */
  lemma {:induction false} NoteMissed(start: Settings, first: string, second: string, works: bool)
    requires TrimSpace(first) == first != "" && TrimSpace(second) == second != ""
    requires first != second && |first| == |second|
    ensures Collisionless(WHOLE_FILES)
    ensures !AnswersRight(
              WHOLE_FILES,
              Run(WHOLE_FILES, start, Some("hashed"),
                  Noted(first) + [Ensure(true)] + [Edit(OneFile(second)), MarkDirty]), works)
  {
    var built := Noted(first) + [Ensure(true)];
    FirstBuild(start, first);
    var s := Run(WHOLE_FILES, start, Some("hashed"), built);
    UnstampedEditIff(WHOLE_FILES, start, Some("hashed"), built, OneFile(second), works);
    OneDraft(first, s.settings.recentDays);
    OneDraft(second, s.settings.recentDays);
  }

  // ------------------------------------------------------------------ the store

  lemma {:induction false} DraftsUpTo(tools: Tools, files: seq<File>, i: nat)
    requires i < |files|
    ensures Drafts(tools, files[..i + 1]) == Drafts(tools, files[..i]) + Cut(tools, files[i])
  {
    assert files[..i + 1][..i] == files[..i];
  }

  lemma {:induction false} DailySnoc(daily: seq<Option<File>>, days: nat)
    requires days < |daily|
    ensures Daily(daily, days + 1) == Daily(daily, days) + if daily[days].Some? then [daily[days].value] else []
  {
    if days > 0 {
      DailySnoc(daily[1..], days - 1);
      var head := if daily[0].Some? then [daily[0].value] else [];
      var last := if daily[days].Some? then [daily[days].value] else [];
      assert daily[1..][days - 1] == daily[days];
      assert head + (Daily(daily[1..], days - 1) + last) == head + Daily(daily[1..], days - 1) + last;
    } else {
      assert Daily(daily[1..], 0) == [];
    }
  }

  lemma {:induction false} DailyEnds(daily: seq<Option<File>>, days: nat)
    requires days >= |daily|
    ensures Daily(daily, days) == Daily(daily, |daily|)
  {
    if daily != [] {
      DailyEnds(daily[1..], days - 1);
    }
  }

  lemma {:induction false} FilledAt(
      tools: Tools, reuse: map<string, Vector>, signature: string, drafts: seq<Draft>, docs: seq<Document>)
    requires |docs| == |drafts| && forall i :: 0 <= i < |docs| ==> docs[i] == Filled(tools, reuse, signature, drafts[i])
    ensures docs == FilledAll(tools, reuse, signature, drafts)
  {
    if drafts != [] {
      FilledAt(tools, reuse, signature, drafts[1..], docs[1..]);
      assert docs == [docs[0]] + docs[1..];
    }
  }

  /** The store object; files and disk are what it sees of the file system. */
  class MemoryVectorStore {
    const tools: Tools
    var files: Files
    var settings: Settings
    var embedder: Option<string>
    var cache: Option<Index>
    var disk: Option<Index>

    ghost function Snapshot(): State
      reads this
    {
      State(files, settings, embedder, cache, disk)
    }

    constructor (tools: Tools, settings: Settings, embedder: Option<string>)
      ensures this.tools == tools && Snapshot() == Run(tools, settings, embedder, [])
    {
      this.tools := tools;
      files, this.settings, this.embedder, cache, disk := Files(None, []), Normalize(settings), embedder, None, None;
    }

    method ApplySettings(settings: Settings, embedder: Option<string>)
      modifies this
      ensures Snapshot() == SettingsStep(old(Snapshot()), settings, embedder)
    {
      var normalized := Normalize(settings);
      if this.settings != normalized || Signature(this.embedder) != Signature(embedder) {
        cache := None;
      }
      this.settings, this.embedder := normalized, embedder;
    }

    method DropCache()
      modifies this`cache
      ensures Snapshot() == old(Snapshot()).(cache := None)
    {
      cache := None;
    }

    method CollectSourceFiles() returns (sources: seq<File>, fingerprint: Fingerprint)
      ensures sources == Collect(files, settings.recentDays) && fingerprint == Print(sources, embedder)
    {
      sources := [];
      if files.memory.Some? {
        sources := [files.memory.value];
      }
      ghost var main := sources;
      var i := 0;
      while i < settings.recentDays && i < |files.daily|
        invariant 0 <= i <= |files.daily| && (settings.recentDays >= 0 ==> i <= settings.recentDays)
        invariant settings.recentDays < 0 ==> i == 0
        invariant sources == main + Daily(files.daily, i)
      {
        DailySnoc(files.daily, i);
        if files.daily[i].Some? {
          sources := sources + [files.daily[i].value];
        }
        i := i + 1;
      }
      if settings.recentDays >= |files.daily| {
        DailyEnds(files.daily, settings.recentDays);
      }
      fingerprint := Print(sources, embedder);
    }

    method BuildDocuments(sources: seq<File>) returns (drafts: seq<Draft>)
      ensures drafts == Drafts(tools, sources)
    {
      drafts := [];
      var i := 0;
      while i < |sources|
        invariant 0 <= i <= |sources| && drafts == Drafts(tools, sources[..i])
      {
        DraftsUpTo(tools, sources, i);
        drafts := drafts + Cut(tools, sources[i]);
        i := i + 1;
      }
      assert sources[..i] == sources;
    }

    method LoadReusable() returns (reuse: map<string, Vector>)
      ensures reuse == ReuseFor(disk, embedder)
    {
      reuse := map[];
      var want := Signature(embedder);
      if disk.Some? && TrimSpace(want) != "" && disk.value.signature == want {
        var documents, i := disk.value.documents, 0;
        while i < |documents|
          invariant 0 <= i <= |documents| && reuse == Reusable(documents[..i])
        {
          assert documents[..i + 1][..i] == documents[..i];
          var doc := documents[i];
          i := i + 1;
          if doc.id == "" || doc.vector == [] {
            continue;
          }
          reuse := reuse[doc.id := doc.vector];
        }
        assert documents[..i] == documents;
      }
    }

    /** The vectors of the texts, in order, or nothing when the backend fails. */
    method Embed(signature: string, texts: seq<string>, works: bool) returns (vectors: Option<seq<Vector>>)
      ensures vectors.Some? <==> works
      ensures works ==> && |vectors.value| == |texts|
                        && forall i :: 0 <= i < |texts| ==> vectors.value[i] == tools.embed(signature, texts[i])
    {
      if !works {
        return None;
      }
      var out, i := [], 0;
      while i < |texts|
        invariant 0 <= i == |out| <= |texts|
        invariant forall j :: 0 <= j < i ==> out[j] == tools.embed(signature, texts[j])
      {
        out := out + [tools.embed(signature, texts[i])];
        i := i + 1;
      }
      return Some(out);
    }

    method FillVectors(drafts: seq<Draft>, reuse: map<string, Vector>, signature: string, works: bool)
      returns (ok: bool, docs: seq<Document>)
      ensures ok <==> works || !NeedsEmbedding(reuse, drafts)
      ensures ok ==> docs == FilledAll(tools, reuse, signature, drafts)
    {
      docs := [];
      var toEmbed: seq<string>, embedIdx: seq<nat> := [], [];
      var i := 0;
      while i < |drafts|
        invariant 0 <= i == |docs| <= |drafts| && |toEmbed| == |embedIdx|
        invariant forall j :: 0 <= j < |embedIdx| ==>
                    embedIdx[j] < i && toEmbed[j] == drafts[embedIdx[j]].text && !Covers(reuse, drafts[embedIdx[j]])
        invariant forall k :: 0 <= k < i ==>
                    docs[k] == if Covers(reuse, drafts[k]) then Filled(tools, reuse, signature, drafts[k])
                               else Unfilled(drafts[k])
        invariant forall k :: 0 <= k < i && !Covers(reuse, drafts[k]) ==> k in embedIdx
      {
        if Covers(reuse, drafts[i]) {
          docs := docs + [Unfilled(drafts[i]).(vector := reuse[drafts[i].id])];
        } else {
          docs := docs + [Unfilled(drafts[i])];
          toEmbed := toEmbed + [drafts[i].text];
          embedIdx := embedIdx + [i];
        }
        i := i + 1;
      }
      if |toEmbed| > 0 {
        assert !Covers(reuse, drafts[embedIdx[0]]);
        var vectors := Embed(signature, toEmbed, works);
        if vectors.None? {
          return false, [];
        }
        var j := 0;
        while j < |embedIdx|
          invariant 0 <= j <= |embedIdx| && |docs| == |drafts|
          invariant forall k :: 0 <= k < |docs| ==>
                      docs[k] == if Covers(reuse, drafts[k]) || k in embedIdx[..j]
                                 then Filled(tools, reuse, signature, drafts[k])
                                 else Unfilled(drafts[k])
        {
          docs := docs[embedIdx[j] := docs[embedIdx[j]].(vector := vectors.value[j])];
          assert embedIdx[..j + 1] == embedIdx[..j] + [embedIdx[j]];
          j := j + 1;
        }
        assert embedIdx[..j] == embedIdx;
      }
      FilledAt(tools, reuse, signature, drafts, docs);
      return true, docs;
    }

    method NewIndex(sources: seq<File>, fingerprint: Fingerprint, works: bool) returns (ok: bool, index: Option<Index>)
      requires sources == Collect(files, settings.recentDays) && fingerprint == Print(sources, embedder)
      ensures ok <==> Rebuilds(tools, Snapshot(), works)
      ensures ok ==> index == Some(NextIndex(tools, Snapshot()))
    {
      var drafts := BuildDocuments(sources);
      var reuse := LoadReusable();
      if embedder.None? {
        return false, None;
      }
      var filled, documents := FillVectors(drafts, reuse, TrimSpace(embedder.value), works);
      if !filled {
        return false, None;
      }
      return true, Some(Index(fingerprint, embedder.value, Dimensions(documents), documents));
    }

    method RebuildFromSources(sources: seq<File>, fingerprint: Fingerprint, works: bool) returns (ok: bool)
      requires sources == Collect(files, settings.recentDays) && fingerprint == Print(sources, embedder)
      modifies this
      ensures Snapshot() == RebuildStep(tools, old(Snapshot()), works)
      ensures ok <==> Rebuilds(tools, old(Snapshot()), works)
    {
      var index: Option<Index>;
      ok, index := NewIndex(sources, fingerprint, works);
      if ok {
        disk := index;
        cache := index;
      }
    }

    method EnsureIndex(works: bool) returns (ok: bool)
      modifies this
      ensures Snapshot() == EnsureStep(tools, old(Snapshot()), works)
      ensures ok <==> Ensures(tools, old(Snapshot()), works)
    {
      var sources, fingerprint := CollectSourceFiles();
      if cache.Some? && cache.value.fingerprint == fingerprint {
        return true;
      }
      if disk.Some? {
        if disk.value.fingerprint == fingerprint {
          cache := disk;
          return true;
        }
      }
      ok := RebuildFromSources(sources, fingerprint, works);
    }
  }
}
