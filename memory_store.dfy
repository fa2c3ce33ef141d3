/** The per-user key/value memory. Each user's values live in one JSON file named after
    a sanitised form of the user id; here the directory of files is a map from file
    name to content, and the JSON text of a whole map is an oracle. */
module MemoryStore {
  import opened Wrappers

  /** A character `[a-zA-Z0-9_-]` matches. */
  predicate IsSafe(c: char) {
    ('a' <= c <= 'z') || ('A' <= c <= 'Z') || ('0' <= c <= '9') || c == '_' || c == '-'
  }

  predicate AllSafe(s: string) {
    forall i :: 0 <= i < |s| ==> IsSafe(s[i])
  }

  /** A character outside the Basic Multilingual Plane, two UTF-16 code units long. */
  predicate IsAstral(c: char) {
    c as int >= 0x1_0000
  }

  /** The length JavaScript reports for `s`: UTF-16 code units. */
  function Utf16Length(s: string): nat
  {
    if |s| == 0 then 0 else (if IsAstral(s[0]) then 2 else 1) + Utf16Length(s[1..])
  }

  /** What the regular expression, which has no `u` flag and so matches single UTF-16
      code units, makes of one character. */
  function SanitizeChar(c: char): (r: string)
    ensures AllSafe(r)
    ensures Utf16Length(r) == (if IsAstral(c) then 2 else 1)
  {
    var r := if IsSafe(c) then [c] else if IsAstral(c) then "__" else "_";
    assert |r| == 2 ==> r[1..] == "_" && r[1..][1..] == [];
    r
  }

  /** `userId.replace(/[^a-zA-Z0-9_-]/g, "_")`. */
  function Sanitize(id: string): (r: string)
    ensures AllSafe(r)
    ensures Utf16Length(r) == Utf16Length(id)
    decreases |id|
  {
    if |id| == 0 then ""
    else
      var head, tail := SanitizeChar(id[0]), Sanitize(id[1..]);
      Utf16LengthConcat(head, tail);
      head + tail
  }

  lemma {:induction false} Utf16LengthConcat(a: string, b: string)
    ensures Utf16Length(a + b) == Utf16Length(a) + Utf16Length(b)
    decreases |a|
  {
    if |a| == 0 {
      assert a + b == b;
    } else {
      assert (a + b)[1..] == a[1..] + b;
      Utf16LengthConcat(a[1..], b);
    }
  }

  /** A string made of safe characters is its own sanitised form. */
  lemma {:induction false} SanitizeKeepsSafe(id: string)
    requires AllSafe(id)
    ensures Sanitize(id) == id
    decreases |id|
  {
    if |id| > 0 {
      SanitizeKeepsSafe(id[1..]);
      assert id == [id[0]] + id[1..];
    }
  }

  /** Sanitising twice is sanitising once. */
  lemma SanitizeIdempotent(id: string)
    ensures Sanitize(Sanitize(id)) == Sanitize(id)
  {
    SanitizeKeepsSafe(Sanitize(id));
  }

  /** Sanitising works character by character. */
  lemma {:induction false} SanitizeConcat(a: string, b: string)
    ensures Sanitize(a + b) == Sanitize(a) + Sanitize(b)
    decreases |a|
  {
    if |a| == 0 {
      assert a + b == b;
    } else {
      assert (a + b)[0] == a[0] && (a + b)[1..] == a[1..] + b;
      SanitizeConcat(a[1..], b);
    }
  }

  /** For an id without astral characters, the sanitised form has the same length and
      keeps each safe character where it is, with "_" in place of every other one. */
  lemma {:induction false} SanitizeEachChar(id: string)
    requires forall i :: 0 <= i < |id| ==> !IsAstral(id[i])
    ensures |Sanitize(id)| == |id|
    ensures forall i :: 0 <= i < |id| ==> Sanitize(id)[i] == if IsSafe(id[i]) then id[i] else '_'
    decreases |id|
  {
    if |id| > 0 {
      SanitizeEachChar(id[1..]);
      var head, tail := SanitizeChar(id[0]), Sanitize(id[1..]);
      assert Sanitize(id) == head + tail;
      assert |head| == 1 && head[0] == if IsSafe(id[0]) then id[0] else '_';
      forall i | 0 < i < |id| ensures Sanitize(id)[i] == if IsSafe(id[i]) then id[i] else '_' {
        assert Sanitize(id)[i] == tail[i - 1] && id[1..][i - 1] == id[i];
      }
    }
  }

  /** An astral character, two UTF-16 code units, becomes "__". */
  lemma SanitizeAstral(c: char)
    requires IsAstral(c)
    ensures Sanitize([c]) == "__"
  {
    assert [c][1..] == [];
  }

  /** The file name of a user's memory: `user_<safe>.json`. */
  function UserPath(userId: string): string
  {
    "user_" + Sanitize(userId) + ".json"
  }

  /** Two users share a file exactly when their ids sanitise alike. */
  lemma UserPathShared(a: string, b: string)
    ensures UserPath(a) == UserPath(b) <==> Sanitize(a) == Sanitize(b)
  {
    if UserPath(a) == UserPath(b) {
      var sa, sb := Sanitize(a), Sanitize(b);
      assert |sa| == |sb|;
      assert forall i :: 0 <= i < |sa| ==> sa[i] == UserPath(a)[5 + i] && sb[i] == UserPath(b)[5 + i];
    }
  }

  /** A memory file: a JSON object of strings, or a file `JSON.parse` rejects. */
  datatype StoredFile = Parsed(data: map<string, string>) | Unreadable

  /** The data a read starts from: a missing or unreadable file counts as empty. */
  function Load(files: map<string, StoredFile>, path: string): (data: map<string, string>)
    ensures path in files && files[path].Parsed? ==> data == files[path].data
    ensures path !in files || files[path].Unreadable? ==> data == map[]
  {
    if path in files && files[path].Parsed? then files[path].data else map[]
  }

  const NoMemoryText: string := "（暂无记忆）"
  const NoSuchKeyText: string := "（无此键）"

  /** The reply of `memoryGet` for the loaded data. `key` is `None` when absent; an
      absent or empty key asks for everything, which `stringify` (`JSON.stringify(data,
      null, 2)`) renders. */
  function Reply(data: map<string, string>, key: Option<string>,
                 stringify: map<string, string> -> string): (r: string)
    ensures (key.None? || key.value == "") && data == map[] ==> r == NoMemoryText
    ensures (key.None? || key.value == "") && data != map[] ==> r == stringify(data)
    ensures key.Some? && key.value != "" && key.value in data ==> r == data[key.value]
    ensures key.Some? && key.value != "" && key.value !in data ==> r == NoSuchKeyText
  {
    if key.None? || key.value == "" then
      if |data| > 0 then stringify(data) else NoMemoryText
    else if key.value in data then data[key.value]
    else NoSuchKeyText
  }

  /** The files after `memorySet(userId, key, value)`: the loaded data with `key` set,
      written back over whatever the file held. */
  function Stored(files: map<string, StoredFile>, userId: string, key: string, value: string)
    : (after: map<string, StoredFile>)
    ensures UserPath(userId) in after && after[UserPath(userId)].Parsed?
    ensures after.Keys == files.Keys + {UserPath(userId)}
    ensures forall p :: p in files && p != UserPath(userId) ==> after[p] == files[p]
  {
    var path := UserPath(userId);
    files[path := Parsed(Load(files, path)[key := value])]
  }

  /** Reading a key back after setting it gives the value set, for any non-empty key
      (an empty key asks for the whole map instead). */
  lemma SetThenGet(files: map<string, StoredFile>, userId: string, key: string, value: string,
                   stringify: map<string, string> -> string)
    requires key != ""
    ensures Reply(Load(Stored(files, userId, key, value), UserPath(userId)), Some(key), stringify) == value
  {
  }

  /** Setting a key leaves every other key of that user, and every other user's file,
      as it was. */
  lemma SetChangesOnlyKey(files: map<string, StoredFile>, userId: string, key: string, value: string,
                          other: string, otherUser: string)
    ensures var before, after := Load(files, UserPath(userId)), Load(Stored(files, userId, key, value), UserPath(userId));
      other != key ==> (other in after <==> other in before) && (other in before ==> after[other] == before[other])
    ensures UserPath(otherUser) != UserPath(userId) ==>
      Load(Stored(files, userId, key, value), UserPath(otherUser)) == Load(files, UserPath(otherUser))
  {
  }

  /** Users whose ids sanitise alike read and write the same memory. */
  lemma SameSanitisedSameMemory(files: map<string, StoredFile>, a: string, b: string, key: string, value: string,
                                query: Option<string>, stringify: map<string, string> -> string)
    requires Sanitize(a) == Sanitize(b)
    ensures Reply(Load(files, UserPath(a)), query, stringify) == Reply(Load(files, UserPath(b)), query, stringify)
    ensures key != "" ==> Reply(Load(Stored(files, a, key, value), UserPath(b)), Some(key), stringify) == value
  {
  }

  /** The memory of all users, as the directory of their files. */
  class Memory {
    var files: map<string, StoredFile>

    constructor (files: map<string, StoredFile>)
      ensures this.files == files
    {
      this.files := files;
    }

    /** `memoryGet(userId, key)`. */
    function Get(userId: string, key: Option<string>, stringify: map<string, string> -> string): (r: string)
      reads this
      ensures key.Some? && key.value != "" && key.value in Load(files, UserPath(userId)) ==>
        r == Load(files, UserPath(userId))[key.value]
      ensures key.Some? && key.value != "" && key.value !in Load(files, UserPath(userId)) ==> r == NoSuchKeyText
      ensures (key.None? || key.value == "") && Load(files, UserPath(userId)) == map[] ==> r == NoMemoryText
      ensures (key.None? || key.value == "") && Load(files, UserPath(userId)) != map[] ==>
        r == stringify(Load(files, UserPath(userId)))
    {
      Reply(Load(files, UserPath(userId)), key, stringify)
    }

    /** `memorySet(userId, key, value)`. */
    method Set(userId: string, key: string, value: string)
      modifies this
      ensures files == Stored(old(files), userId, key, value)
      ensures key != "" ==> forall stringify: map<string, string> -> string :: Get(userId, Some(key), stringify) == value
    {
      files := Stored(files, userId, key, value);
    }
  }
}
