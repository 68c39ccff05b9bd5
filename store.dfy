/** The browser's persistent key-value store as the script uses it.
    Two kinds of value live under disjoint sets of keys: plain strings (the
    language, the last recording's url, the profile's author and village) and
    JSON arrays of records, newest first (stories, products, answers, audio
    items). A record is a flat object whose every field is a string. */
module Store {
  import opened Js

  /** A stored JSON object: field name to string value. */
  type Record = map<string, string>

  datatype Store = Store(texts: map<string, string>, lists: map<string, seq<Record>>)

  const LanguageKey: string := "mittiLanguage"
  const LastRecordingKey: string := "lastRecording"
  const AuthorKey: string := "mittiAuthor"
  const VillageKey: string := "mittiVillage"
  const StoriesKey: string := "mittiStories"
  const ProductsKey: string := "mittiProducts"
  const AnswersKey: string := "mittiAnswers"
  const AudioKey: string := "mittiAudio"

  const Empty: Store := Store(map[], map[])

  /** `localStorage.getItem(key)` for a string-valued key. */
  function GetItem(st: Store, key: string): (r: Option<string>)
    ensures r.Some? <==> key in st.texts
    ensures r.Some? ==> r.value == st.texts[key]
  {
    if key in st.texts then Some(st.texts[key]) else None
  }

  /** `localStorage.setItem(key, value)` for a string-valued key. */
  function SetItem(st: Store, key: string, value: string): (r: Store)
    ensures GetItem(r, key) == Some(value)
    ensures forall k :: k != key ==> GetItem(r, k) == GetItem(st, k)
    ensures r.lists == st.lists
  {
    st.(texts := st.texts[key := value])
  }

  /** `JSON.parse(localStorage.getItem(key) || '[]')`: a missing key reads as the empty list. */
  function ReadList(st: Store, key: string): (r: seq<Record>)
    ensures key !in st.lists ==> r == []
    ensures key in st.lists ==> r == st.lists[key]
  {
    if key in st.lists then st.lists[key] else []
  }

  /** Read the list, `unshift` the record, write the list back. */
  function Prepend(st: Store, key: string, rec: Record): (r: Store)
    ensures ReadList(r, key) == [rec] + ReadList(st, key)
    ensures forall k :: k != key ==> ReadList(r, k) == ReadList(st, k)
    ensures r.texts == st.texts
  {
    st.(lists := st.lists[key := [rec] + ReadList(st, key)])
  }

  /** Reading a list back after a prepend yields the new record first and the old list after it;
      no other key is disturbed. */
  lemma {:induction false} PrependThenRead(st: Store, key: string, rec: Record, other: string)
    requires other != key
    ensures |ReadList(Prepend(st, key, rec), key)| == |ReadList(st, key)| + 1
    ensures ReadList(Prepend(st, key, rec), key)[0] == rec
    ensures ReadList(Prepend(st, key, rec), key)[1..] == ReadList(st, key)
    ensures ReadList(Prepend(st, key, rec), other) == ReadList(st, other)
    ensures GetItem(Prepend(st, key, rec), other) == GetItem(st, other)
  {
  }

  /** Prepends keep the store append-only: every record stored before is still there, one
      place further down for each later prepend to its key. */
  lemma {:induction false} PrependKeepsOld(st: Store, key: string, rec: Record, i: nat)
    requires i < |ReadList(st, key)|
    ensures ReadList(Prepend(st, key, rec), key)[i + 1] == ReadList(st, key)[i]
  {
  }
}
