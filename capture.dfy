/** What the recorder's `onstop` handler writes to the store, as a function of the store,
    the transcript at that moment, the recording's url and the time. The url stands for
    the object URL made from the recorded audio; the time is the ISO string the handler
    takes from the clock. */
module Capture {
  import opened Js
  import opened Store

  const VoiceTitle: string := "Voice Story"
  const VoiceCategory: string := "voice"
  const DefaultAuthor: string := "You"

  /** `lastTranscription && lastTranscription.trim().length > 0`. */
  predicate HasSpeech(transcript: string) {
    transcript != "" && Trim(transcript) != ""
  }

  /** A transcript counts as speech exactly when it holds a character that is not white space. */
  lemma HasSpeechIff(transcript: string)
    ensures HasSpeech(transcript) <==> !AllSpace(transcript)
  {
    TrimEmptyIff(transcript);
  }

  /** The story the handler builds from a transcript. */
  function VoiceStory(st: Store, transcript: string, timestamp: string): Record {
    map[
      "title" := VoiceTitle,
      "content" := transcript,
      "author" := OrElse(GetItem(st, AuthorKey), DefaultAuthor),
      "village" := OrElse(GetItem(st, VillageKey), ""),
      "category" := VoiceCategory,
      "timestamp" := timestamp]
  }

  /** The story holds exactly the six fields the handler writes: the transcript as its content,
      the profile's author (`You` when unset) and village (empty when unset). */
  lemma VoiceStoryFields(st: Store, transcript: string, timestamp: string)
    ensures var story := VoiceStory(st, transcript, timestamp);
      && story.Keys == {"title", "content", "author", "village", "category", "timestamp"}
      && story["title"] == VoiceTitle && story["category"] == VoiceCategory
      && story["content"] == transcript && story["timestamp"] == timestamp
      && story["author"] == OrElse(GetItem(st, AuthorKey), DefaultAuthor) && story["author"] != ""
      && story["village"] == OrElse(GetItem(st, VillageKey), "")
  {
  }

  /** The audio-only item: `{ url, timestamp }`. */
  function AudioItem(url: string, timestamp: string): (item: Record)
    ensures item.Keys == {"url", "timestamp"} && item["url"] == url && item["timestamp"] == timestamp
  {
    map["url" := url, "timestamp" := timestamp]
  }

  /** The store after `onstop`: the url is saved under `lastRecording`; then a voice story is
      prepended to the stories when there is speech, or an audio item to the audio list when
      there is not. */
  function Finalized(st: Store, transcript: string, url: string, timestamp: string): Store {
    var saved := SetItem(st, LastRecordingKey, url);
    if HasSpeech(transcript) then
      Prepend(saved, StoriesKey, VoiceStory(saved, transcript, timestamp))
    else
      Prepend(saved, AudioKey, AudioItem(url, timestamp))
  }

  /** Saving the url first does not change the story: it reads only the profile keys. */
  lemma VoiceStoryIgnoresLastRecording(st: Store, url: string, transcript: string, timestamp: string)
    ensures VoiceStory(SetItem(st, LastRecordingKey, url), transcript, timestamp) == VoiceStory(st, transcript, timestamp)
  {
    var saved := SetItem(st, LastRecordingKey, url);
    assert GetItem(saved, AuthorKey) == GetItem(st, AuthorKey);
    assert GetItem(saved, VillageKey) == GetItem(st, VillageKey);
  }

  /** With speech, exactly one story is prepended, built from the transcript and the profile
      keys, and the audio list is left alone. */
  lemma FinalizeWithSpeech(st: Store, transcript: string, url: string, timestamp: string)
    requires HasSpeech(transcript)
    ensures var r := Finalized(st, transcript, url, timestamp);
      && ReadList(r, StoriesKey) == [VoiceStory(st, transcript, timestamp)] + ReadList(st, StoriesKey)
      && ReadList(r, AudioKey) == ReadList(st, AudioKey)
      && GetItem(r, LastRecordingKey) == Some(url)
  {
    VoiceStoryIgnoresLastRecording(st, url, transcript, timestamp);
  }

  /** Without speech, exactly one `{url, timestamp}` item is prepended to the audio list and the
      stories are left alone. */
  lemma FinalizeWithoutSpeech(st: Store, transcript: string, url: string, timestamp: string)
    requires !HasSpeech(transcript)
    ensures var r := Finalized(st, transcript, url, timestamp);
      && ReadList(r, AudioKey) == [AudioItem(url, timestamp)] + ReadList(st, AudioKey)
      && ReadList(r, StoriesKey) == ReadList(st, StoriesKey)
      && GetItem(r, LastRecordingKey) == Some(url)
  {
  }

  /** Every finalization stores exactly one record across the two lists, touches no other list,
      and changes no string key but `lastRecording`. */
  lemma FinalizeExactlyOne(st: Store, transcript: string, url: string, timestamp: string, other: string)
    requires other != StoriesKey && other != AudioKey && other != LastRecordingKey
    ensures var r := Finalized(st, transcript, url, timestamp);
      && |ReadList(r, StoriesKey)| + |ReadList(r, AudioKey)| == |ReadList(st, StoriesKey)| + |ReadList(st, AudioKey)| + 1
      && ReadList(r, other) == ReadList(st, other)
      && GetItem(r, other) == GetItem(st, other)
  {
    if HasSpeech(transcript) {
      FinalizeWithSpeech(st, transcript, url, timestamp);
    } else {
      FinalizeWithoutSpeech(st, transcript, url, timestamp);
    }
  }

  /** A transcript of white space only (what `onresult` leaves when nothing was recognised) is
      saved as audio, never as an empty story. */
  lemma BlankTranscriptIsAudio(st: Store, transcript: string, url: string, timestamp: string)
    requires AllSpace(transcript)
    ensures ReadList(Finalized(st, transcript, url, timestamp), StoriesKey) == ReadList(st, StoriesKey)
  {
    HasSpeechIff(transcript);
  }
}
