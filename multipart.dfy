/** Multipart form data as the browser's `FormData` builds it and as the
    server's body parser (multer) hands it to a route. */
module Multipart {

  /** An uploaded file; its bytes are opaque to the model. */
  datatype File = File(name: string, content: seq<int>)

  /** One `FormData.append(key, value)` call. */
  datatype Entry = TextEntry(key: string, text: string) | FileEntry(key: string, file: File)

  /** The texts appended under `key`, in append order. */
  function TextsUnder(entries: seq<Entry>, key: string): (r: seq<string>)
    ensures |r| <= |entries|
  {
    if entries == [] then []
    else
      var rest := TextsUnder(entries[1..], key);
      match entries[0]
      case TextEntry(k, t) => if k == key then [t] + rest else rest
      case FileEntry(_, _) => rest
  }

  /** The files appended under `key`, in append order: what
      `upload.array(key)` puts in `req.files`. */
  function FilesUnder(entries: seq<Entry>, key: string): (r: seq<File>)
    ensures |r| <= |entries|
  {
    if entries == [] then []
    else
      var rest := FilesUnder(entries[1..], key);
      match entries[0]
      case FileEntry(k, f) => if k == key then [f] + rest else rest
      case TextEntry(_, _) => rest
  }

  /** Every text gathered under `key` was appended under `key`. */
  lemma {:induction false} TextsUnderSound(entries: seq<Entry>, key: string)
    ensures forall t :: t in TextsUnder(entries, key) ==> TextEntry(key, t) in entries
  {
    if entries != [] {
      TextsUnderSound(entries[1..], key);
      assert forall e :: e in entries[1..] ==> e in entries;
    }
  }

  /** Every file gathered under `key` was appended under `key`. */
  lemma {:induction false} FilesUnderSound(entries: seq<Entry>, key: string)
    ensures forall f :: f in FilesUnder(entries, key) ==> FileEntry(key, f) in entries
  {
    if entries != [] {
      FilesUnderSound(entries[1..], key);
      assert forall e :: e in entries[1..] ==> e in entries;
    }
  }

  /** Number of entries, text or file, whose key is `key`. */
  function CountKey(entries: seq<Entry>, key: string): nat {
    if entries == [] then 0
    else (if entries[0].key == key then 1 else 0) + CountKey(entries[1..], key)
  }

  lemma {:induction false} TextsUnderAppend(a: seq<Entry>, b: seq<Entry>, key: string)
    ensures TextsUnder(a + b, key) == TextsUnder(a, key) + TextsUnder(b, key)
  {
    if a != [] {
      assert (a + b)[1..] == a[1..] + b;
      TextsUnderAppend(a[1..], b, key);
    } else {
      assert a + b == b;
    }
  }

  lemma {:induction false} FilesUnderAppend(a: seq<Entry>, b: seq<Entry>, key: string)
    ensures FilesUnder(a + b, key) == FilesUnder(a, key) + FilesUnder(b, key)
  {
    if a != [] {
      assert (a + b)[1..] == a[1..] + b;
      FilesUnderAppend(a[1..], b, key);
    } else {
      assert a + b == b;
    }
  }

  lemma {:induction false} CountKeyAppend(a: seq<Entry>, b: seq<Entry>, key: string)
    ensures CountKey(a + b, key) == CountKey(a, key) + CountKey(b, key)
  {
    if a != [] {
      assert (a + b)[1..] == a[1..] + b;
      CountKeyAppend(a[1..], b, key);
    } else {
      assert a + b == b;
    }
  }

  /** How the body parser presents a text field to the route: missing, a
      single string, or an array of strings when the key was appended more
      than once. */
  datatype FieldShape = Absent | Single(text: string) | Repeated(texts: seq<string>)

  function FieldOf(entries: seq<Entry>, key: string): (r: FieldShape)
    ensures r.Absent? <==> TextsUnder(entries, key) == []
    ensures r.Single? <==> |TextsUnder(entries, key)| == 1
    ensures r.Repeated? ==> r.texts == TextsUnder(entries, key) && |r.texts| >= 2
  {
    var ts := TextsUnder(entries, key);
    if |ts| == 0 then Absent else if |ts| == 1 then Single(ts[0]) else Repeated(ts)
  }
}
