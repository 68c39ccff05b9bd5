/** The script's page state and its event handlers. The globals `currentLanguage`,
    `recording`, `audioChunks` and `lastTranscription`, the store, the submit listeners
    and the parts of the page the script writes to are fields of one object; every
    handler is a method. Browser outcomes the script waits for (microphone permission,
    speech support, the audio's object URL, the clock) are parameters. Each handler
    returns the toast messages it shows, in order. */
module App {
  import opened Js
  import opened Store
  import opened Language
  import opened Transcript
  import opened Views
  import opened Capture

  /** One piece of recorded audio, as `ondataavailable` delivers it. */
  type Chunk = seq<bv8>

  /** The submit listener `handleFormSubmit` attaches to a form. */
  datatype Listener = Listener(storageKey: string, message: string)

  /** The parts of the page the script writes to; `None` where the page has no such element. */
  datatype Dom = Dom(
    contentField: Option<string>,
    stories: Option<StoriesView>,
    bazaar: Option<seq<ProductCard>>,
    answers: Option<seq<AnswerCard>>,
    audio: Option<AudioView>)

  const SellForm: string := "sellForm"
  const AnswerForm: string := "answerForm"
  const StoryForm: string := "storyForm"
  const TimestampField: string := "timestamp"

  function RecordingSaved(lang: string): string { Pick(lang, "Recording saved", "रिकॉर्डिंग सुरक्षित की गई") }
  function MicrophoneDenied(lang: string): string { Pick(lang, "Microphone access denied", "माइक्रोफ़ोन एक्सेस अस्वीकृत") }
  function SpeechUnsupported(lang: string): string {
    Pick(lang, "Speech recognition not supported in this browser", "आपके ब्राउज़र में स्पीच रिकग्निशन समर्थित नहीं है")
  }
  function RecordingStarted(lang: string): string { Pick(lang, "Recording started", "रिकॉर्डिंग शुरू हुई") }
  function ProductListed(lang: string): string { Pick(lang, "Product listed successfully!", "उत्पाद सफलतापूर्वक सूचीबद्ध किया गया!") }
  function AnswerPosted(lang: string): string { Pick(lang, "Answer posted successfully!", "जवाब सफलतापूर्वक पोस्ट किया गया!") }
  function StoryShared(lang: string): string { Pick(lang, "Story shared successfully!", "कहानी सफलतापूर्वक साझा की गई!") }

  /** The record a submitted form stores: its fields with the submission time added. */
  function Submission(fields: Record, timestamp: string): (rec: Record)
    ensures rec.Keys == fields.Keys + {TimestampField}
    ensures rec[TimestampField] == timestamp
    ensures forall f :: f in fields && f != TimestampField ==> rec[f] == fields[f]
  {
    fields[TimestampField := timestamp]
  }

  /** The listeners after `handleFormSubmit(formId, …)`: a form on the page that is not bound
      yet gets the listener; a missing or already bound form is left as it is. */
  function Bind(listeners: map<string, Listener>, forms: set<string>, formId: string, l: Listener): map<string, Listener> {
    if formId in forms && formId !in listeners then listeners[formId := l] else listeners
  }

  /** A form is bound at most once: binding it again, with any listener, changes nothing. */
  lemma BindOnce(listeners: map<string, Listener>, forms: set<string>, formId: string, a: Listener, b: Listener)
    ensures Bind(Bind(listeners, forms, formId, a), forms, formId, b) == Bind(listeners, forms, formId, a)
  {
  }

  /** Binding keeps every listener already bound, and binds only forms on the page. */
  lemma BindKeeps(listeners: map<string, Listener>, forms: set<string>, formId: string, l: Listener)
    requires listeners.Keys <= forms
    ensures var r := Bind(listeners, forms, formId, l);
      && (forall f :: f in listeners ==> f in r && r[f] == listeners[f])
      && r.Keys <= forms
      && (formId in r <==> formId in forms)
      && (formId in forms && formId !in listeners ==> r[formId] == l)
  {
  }

  /** The three bindings of page load, with messages in the current language. */
  function InitBindings(listeners: map<string, Listener>, forms: set<string>, lang: string): map<string, Listener> {
    var sell := Bind(listeners, forms, SellForm, Listener(ProductsKey, ProductListed(lang)));
    var answer := Bind(sell, forms, AnswerForm, Listener(AnswersKey, AnswerPosted(lang)));
    Bind(answer, forms, StoryForm, Listener(StoriesKey, StoryShared(lang)))
  }

  /** After page load every form on the page that was unbound carries its listener, and no
      earlier binding is replaced. */
  lemma InitBindsEachForm(listeners: map<string, Listener>, forms: set<string>, lang: string)
    requires listeners.Keys <= forms
    ensures var r := InitBindings(listeners, forms, lang);
      && (forall f :: f in listeners ==> f in r && r[f] == listeners[f])
      && r.Keys <= forms
      && (SellForm in forms && SellForm !in listeners ==> r[SellForm] == Listener(ProductsKey, ProductListed(lang)))
      && (AnswerForm in forms && AnswerForm !in listeners ==> r[AnswerForm] == Listener(AnswersKey, AnswerPosted(lang)))
      && (StoryForm in forms && StoryForm !in listeners ==> r[StoryForm] == Listener(StoriesKey, StoryShared(lang)))
  {
    var sell := Bind(listeners, forms, SellForm, Listener(ProductsKey, ProductListed(lang)));
    var answer := Bind(sell, forms, AnswerForm, Listener(AnswersKey, AnswerPosted(lang)));
    BindKeeps(listeners, forms, SellForm, Listener(ProductsKey, ProductListed(lang)));
    BindKeeps(sell, forms, AnswerForm, Listener(AnswersKey, AnswerPosted(lang)));
    BindKeeps(answer, forms, StoryForm, Listener(StoriesKey, StoryShared(lang)));
  }

  /** The recording globals taken together. */
  datatype RecorderState = RecorderState(
    recording: bool, recorderActive: bool, listening: bool, chunks: seq<Chunk>, transcript: string)

  class Page {
    var store: Store
    /** `currentLanguage` */
    var lang: string
    var recording: bool
    /** The media recorder exists and its state is not 'inactive'. */
    var recorderActive: bool
    /** A speech recogniser was started and not yet stopped. */
    var listening: bool
    /** `audioChunks` */
    var chunks: seq<Chunk>
    /** `lastTranscription` */
    var transcript: string
    var dom: Dom
    /** The ids of the forms on the page. */
    const forms: set<string>
    /** The id of the form the content field belongs to, whose `reset()` empties it. */
    const contentForm: string
    /** The forms `handleFormSubmit` has bound (`__mittiInitialized`), with their listeners. */
    var listeners: map<string, Listener>

    ghost function Recorder(): RecorderState
      reads this
    {
      RecorderState(recording, recorderActive, listening, chunks, transcript)
    }

    ghost predicate Valid()
      reads this
    {
      && (recorderActive ==> recording)
      && (listening ==> recording)
      && (dom.stories.Some? ==> dom.stories.value.Aligned())
      && listeners.Keys <= forms
    }

    /** Page load: the language comes from the store, nothing is recording, no form is bound
        yet, and every container the page has is still empty. */
    constructor (stored: Store, forms: set<string>, contentForm: string, hasContentField: bool,
                 hasStories: bool, hasBazaar: bool, hasAnswers: bool, hasAudio: bool)
      ensures Valid()
      ensures store == stored && lang == Initial(GetItem(stored, LanguageKey))
      ensures !recording && !recorderActive && !listening && chunks == [] && transcript == ""
      ensures this.forms == forms && this.contentForm == contentForm && listeners == map[]
      ensures dom.contentField == (if hasContentField then Some("") else None)
      ensures dom.stories == (if hasStories then Some(BlankStories) else None)
      ensures dom.bazaar == (if hasBazaar then Some([]) else None)
      ensures dom.answers == (if hasAnswers then Some([]) else None)
      ensures dom.audio == (if hasAudio then Some(Recordings([])) else None)
    {
      store := stored;
      lang := Initial(GetItem(stored, LanguageKey));
      recording, recorderActive, listening := false, false, false;
      chunks := [];
      transcript := "";
      this.forms := forms;
      this.contentForm := contentForm;
      listeners := map[];
      dom := Dom(
        if hasContentField then Some("") else None,
        if hasStories then Some(BlankStories) else None,
        if hasBazaar then Some([]) else None,
        if hasAnswers then Some([]) else None,
        if hasAudio then Some(Recordings([])) else None);
    }

    /** `toggleLanguage`: switch the language and persist it. */
    method ToggleLanguage()
      requires Valid()
      modifies this
      ensures Valid()
      ensures lang == Toggle(old(lang))
      ensures store == SetItem(old(store), LanguageKey, lang)
      ensures Recorder() == old(Recorder())
      ensures dom == old(dom) && listeners == old(listeners)
    {
      lang := Toggle(lang);
      store := SetItem(store, LanguageKey, lang);
    }

    /** `toggleRecording`. While recording it stops the recorder and the recogniser; the
        recording is saved later, by `OnStop`. Otherwise it asks for the microphone: a denial
        changes nothing; a grant starts a recorder on an empty chunk buffer and, when the
        browser has speech recognition, a recogniser on an empty transcript. */
    method ToggleRecording(micGranted: bool, speechSupported: bool) returns (toasts: seq<string>)
      requires Valid()
      modifies this
      ensures Valid()
      ensures store == old(store) && lang == old(lang) && dom == old(dom) && listeners == old(listeners)
      // stop path
      ensures old(recording) ==>
        && !recording && !recorderActive && !listening
        && chunks == old(chunks) && transcript == old(transcript)
        && toasts == [RecordingSaved(lang)]
      // start path, microphone denied
      ensures !old(recording) && !micGranted ==>
        && !recording && !recorderActive && listening == old(listening)
        && chunks == old(chunks) && transcript == old(transcript)
        && toasts == [MicrophoneDenied(lang)]
      // start path, microphone granted
      ensures !old(recording) && micGranted ==>
        && recording && recorderActive && listening == speechSupported && chunks == []
        && transcript == (if speechSupported then "" else old(transcript))
        && toasts == (if speechSupported then [] else [SpeechUnsupported(lang)]) + [RecordingStarted(lang)]
      // recording only ever starts from idle with the microphone granted
      ensures recording ==> !old(recording) && micGranted
    {
      if recording {
        if recorderActive {
          recorderActive := false;
        }
        listening := false;
        recording := false;
        return [RecordingSaved(lang)];
      }
      if !micGranted {
        return [MicrophoneDenied(lang)];
      }
      chunks := [];
      recorderActive := true;
      toasts := [];
      if speechSupported {
        transcript := "";
        listening := true;
      } else {
        toasts := toasts + [SpeechUnsupported(lang)];
      }
      recording := true;
      toasts := toasts + [RecordingStarted(lang)];
    }

    /** `mediaRecorder.ondataavailable`: buffer a chunk. */
    method OnDataAvailable(chunk: Chunk)
      requires Valid()
      modifies this
      ensures Valid()
      ensures chunks == old(chunks) + [chunk]
      ensures Recorder() == old(Recorder()).(chunks := chunks)
      ensures store == old(store) && lang == old(lang)
      ensures dom == old(dom) && listeners == old(listeners)
    {
      chunks := chunks + [chunk];
    }

    /** `mediaRecorder.onstop`: save the url of the recording, clear the chunk buffer, store the
        transcript as a voice story (showing it on top of the recent stories when the page lists
        them, which, as written, drops the copy handlers of the cards below) or, without speech,
        store an audio item; then clear the transcript. */
    method OnStop(url: string, timestamp: string)
      requires Valid()
      modifies this
      ensures Valid()
      ensures store == Finalized(old(store), old(transcript), url, timestamp)
      ensures Recorder() == old(Recorder()).(chunks := [], transcript := "")
      ensures dom.stories ==
        if HasSpeech(old(transcript)) && old(dom.stories).Some? then
          Some(PrependStoryAsWritten(old(dom.stories).value, VoiceStory(old(store), old(transcript), timestamp)))
        else old(dom.stories)
      ensures dom == old(dom).(stories := dom.stories)
      ensures lang == old(lang) && listeners == old(listeners)
    {
      chunks := [];
      if HasSpeech(transcript) && dom.stories.Some? {
        var story := VoiceStory(store, transcript, timestamp);
        dom := dom.(stories := Some(PrependStoryAsWritten(dom.stories.value, story)));
      }
      store := Finalized(store, transcript, url, timestamp);
      transcript := "";
    }

    /** `speechRecognition.onresult`: the transcript becomes the trimmed final-then-interim text
        of the event's results, mirrored into the content field when the page has one. */
    method OnResult(results: seq<RecognitionResult>, resultIndex: nat)
      requires Valid()
      modifies this
      ensures Valid()
      ensures transcript == Composed(results, resultIndex)
      ensures dom == old(dom).(contentField := if old(dom.contentField).Some? then Some(transcript) else None)
      ensures Recorder() == old(Recorder()).(transcript := transcript)
      ensures store == old(store) && lang == old(lang) && listeners == old(listeners)
    {
      var text := Compose(results, resultIndex);
      if dom.contentField.Some? {
        dom := dom.(contentField := Some(text));
      }
      transcript := text;
    }

    /** `handleFormSubmit`: bind the form's submit listener once. A form missing from the page,
        or one already bound, is left as it is. */
    method HandleFormSubmit(formId: string, storageKey: string, message: string)
      requires Valid()
      modifies this
      ensures Valid()
      ensures listeners == Bind(old(listeners), forms, formId, Listener(storageKey, message))
      ensures store == old(store) && lang == old(lang) && dom == old(dom)
      ensures Recorder() == old(Recorder())
    {
      if formId !in forms {
        return;
      }
      if formId in listeners {
        return;
      }
      listeners := listeners[formId := Listener(storageKey, message)];
    }

    /** A form's submit event. For a bound form: store its fields with the time under the
        listener's key, show its message, reset the form (which empties the content field when
        it belongs to that form), and re-render the list the form feeds when the page shows it.
        `completed` is false when that re-render threw. An unbound form is not handled by the
        script. */
    method Submit(formId: string, fields: Record, timestamp: string) returns (toasts: seq<string>, completed: bool)
      requires Valid()
      modifies this
      ensures Valid()
      ensures formId !in listeners ==> store == old(store) && dom == old(dom) && toasts == [] && completed
      ensures formId in listeners ==>
        && store == Prepend(old(store), listeners[formId].storageKey, Submission(fields, timestamp))
        && toasts == [listeners[formId].message]
      ensures dom.contentField ==
        if formId in listeners && formId == contentForm && old(dom.contentField).Some? then Some("")
        else old(dom.contentField)
      // the list the form feeds is re-rendered from the new store
      ensures formId in listeners && formId == SellForm && old(dom.bazaar).Some? ==>
        dom.bazaar.Some? && ShowsProducts(dom.bazaar.value, ReadList(store, ProductsKey))
      ensures formId in listeners && formId == AnswerForm && old(dom.answers).Some? ==>
        dom.answers.Some? && ShowsAnswers(dom.answers.value, ReadList(store, AnswersKey), completed)
      ensures formId in listeners && formId == StoryForm && old(dom.stories).Some? ==>
        dom.stories.Some? && ShowsStoriesAsWritten(dom.stories.value, ReadList(store, StoriesKey))
      // every other list is left as it was, and a missing container stays missing
      ensures formId != SellForm || old(dom.bazaar).None? ==> dom.bazaar == old(dom.bazaar)
      ensures formId != AnswerForm || old(dom.answers).None? ==> dom.answers == old(dom.answers) && completed
      ensures formId != StoryForm || old(dom.stories).None? ==> dom.stories == old(dom.stories)
      ensures dom.audio == old(dom.audio)
      ensures lang == old(lang) && listeners == old(listeners)
      ensures Recorder() == old(Recorder())
    {
      if formId !in listeners {
        return [], true;
      }
      var listener := listeners[formId];
      store := Prepend(store, listener.storageKey, Submission(fields, timestamp));
      toasts := [listener.message];
      if formId == contentForm && dom.contentField.Some? {
        dom := dom.(contentField := Some(""));
      }
      completed := true;
      if formId == SellForm {
        RenderBazaar();
      }
      if formId == AnswerForm {
        completed := RenderAnswers();
      }
      if formId == StoryForm {
        RenderStories();
      }
    }

    /** `renderRecentStories`, as written, into the page's recent-stories container, if any. */
    method RenderStories()
      requires Valid()
      modifies this
      ensures Valid()
      ensures old(dom.stories).None? ==> dom == old(dom)
      ensures old(dom.stories).Some? ==>
        dom.stories.Some? && ShowsStoriesAsWritten(dom.stories.value, ReadList(store, StoriesKey))
      ensures dom == old(dom).(stories := dom.stories)
      ensures store == old(store) && lang == old(lang) && listeners == old(listeners)
      ensures Recorder() == old(Recorder())
    {
      if dom.stories.None? {
        return;
      }
      var stored := ReadList(store, StoriesKey);
      RenderAsWrittenShows(stored);
      dom := dom.(stories := Some(RenderRecentStoriesAsWritten(stored)));
    }

    /** `renderBazaarItems` into the page's bazaar container, if any. */
    method RenderBazaar()
      requires Valid()
      modifies this
      ensures Valid()
      ensures old(dom.bazaar).None? ==> dom == old(dom)
      ensures old(dom.bazaar).Some? ==>
        dom.bazaar.Some? && ShowsProducts(dom.bazaar.value, ReadList(store, ProductsKey))
      ensures dom == old(dom).(bazaar := dom.bazaar)
      ensures store == old(store) && lang == old(lang) && listeners == old(listeners)
      ensures Recorder() == old(Recorder())
    {
      if dom.bazaar.None? {
        return;
      }
      var cards := RenderBazaarItems(ReadList(store, ProductsKey));
      dom := dom.(bazaar := Some(cards));
    }

    /** `renderCommunityAnswers` into the page's answers container, if any; `completed` is
        false when an answer's card threw, leaving the cards before it in the container. */
    method RenderAnswers() returns (completed: bool)
      requires Valid()
      modifies this
      ensures Valid()
      ensures old(dom.answers).None? ==> dom == old(dom) && completed
      ensures old(dom.answers).Some? ==>
        dom.answers.Some? && ShowsAnswers(dom.answers.value, ReadList(store, AnswersKey), completed)
      ensures dom == old(dom).(answers := dom.answers)
      ensures store == old(store) && lang == old(lang) && listeners == old(listeners)
      ensures Recorder() == old(Recorder())
    {
      if dom.answers.None? {
        return true;
      }
      var cards;
      cards, completed := RenderCommunityAnswers(ReadList(store, AnswersKey));
      dom := dom.(answers := Some(cards));
    }

    /** `renderAudioList` into the page's audio container, if any. */
    method RenderAudio()
      requires Valid()
      modifies this
      ensures Valid()
      ensures old(dom.audio).None? ==> dom == old(dom)
      ensures old(dom.audio).Some? ==>
        dom.audio.Some? && ShowsAudio(dom.audio.value, ReadList(store, AudioKey))
      ensures dom == old(dom).(audio := dom.audio)
      ensures store == old(store) && lang == old(lang) && listeners == old(listeners)
      ensures Recorder() == old(Recorder())
    {
      if dom.audio.None? {
        return;
      }
      var v := RenderAudioList(ReadList(store, AudioKey));
      dom := dom.(audio := Some(v));
    }

    /** The `DOMContentLoaded` handler, from the form bindings on: bind the three forms with
        messages in the current language, then render the bazaar, the answers, the recent
        stories and the audio list. An answer that throws ends the handler there, so the
        stories and the audio list are then not rendered. */
    method Init() returns (completed: bool)
      requires Valid()
      modifies this
      ensures Valid()
      ensures listeners == InitBindings(old(listeners), forms, lang)
      ensures completed <==> old(dom.answers).None? || AllAnswersRender(ReadList(store, AnswersKey))
      ensures old(dom.bazaar).Some? ==>
        dom.bazaar.Some? && ShowsProducts(dom.bazaar.value, ReadList(store, ProductsKey))
      ensures old(dom.answers).Some? ==>
        dom.answers.Some? && ShowsAnswers(dom.answers.value, ReadList(store, AnswersKey), completed)
      ensures completed && old(dom.stories).Some? ==>
        dom.stories.Some? && ShowsStoriesAsWritten(dom.stories.value, ReadList(store, StoriesKey))
      ensures completed && old(dom.audio).Some? ==>
        dom.audio.Some? && ShowsAudio(dom.audio.value, ReadList(store, AudioKey))
      // a container the page lacks stays missing; after a throw, stories and audio are untouched
      ensures old(dom.bazaar).None? ==> dom.bazaar.None?
      ensures old(dom.answers).None? ==> dom.answers.None?
      ensures !completed || old(dom.stories).None? ==> dom.stories == old(dom.stories)
      ensures !completed || old(dom.audio).None? ==> dom.audio == old(dom.audio)
      ensures dom.contentField == old(dom.contentField)
      ensures store == old(store) && lang == old(lang)
      ensures Recorder() == old(Recorder())
    {
      HandleFormSubmit(SellForm, ProductsKey, ProductListed(lang));
      HandleFormSubmit(AnswerForm, AnswersKey, AnswerPosted(lang));
      HandleFormSubmit(StoryForm, StoriesKey, StoryShared(lang));
      RenderBazaar();
      completed := RenderAnswers();
      if !completed {
        return;
      }
      RenderStories();
      RenderAudio();
    }
  }
}
