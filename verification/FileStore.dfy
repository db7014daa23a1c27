/** The file-backed key-value store: one file per key in one directory, named after the key. */
module FileStore {
  import opened Prelude
  import opened Text

  const TXT := ".txt"

  function FileName(key: string): (name: string)
    ensures KeyOf(name) == key
  {
    key + TXT
  }

  /** The name without its last four characters. */
  function KeyOf(name: string): string {
    if |name| >= |TXT| then name[..|name| - |TXT|] else []
  }

  /** `strings.ReplaceAll(name, ".txt", "")` */
  function StripTxt(name: string): (r: string)
    ensures |r| <= |name|
  {
    if name == [] then []
    else if TXT <= name then StripTxt(name[|TXT|..])
    else [name[0]] + StripTxt(name[1..])
  }

  lemma StripStep(key: string)
    requires key != []
    ensures !(TXT <= FileName(key)) ==> StripTxt(FileName(key)) == [key[0]] + StripTxt(FileName(key[1..]))
    ensures TXT <= key ==> TXT <= FileName(key) && StripTxt(FileName(key)) == StripTxt(FileName(key[|TXT|..]))
  {
    var name := FileName(key);
    assert name[1..] == FileName(key[1..]);
    if TXT <= key {
      assert name[..|TXT|] == key[..|TXT|];
      assert name[|TXT|..] == FileName(key[|TXT|..]);
    }
  }

  lemma {:induction false} StripOfClean(key: string)
    requires !Contains(key, TXT)
    ensures StripTxt(FileName(key)) == key
  {
    if key == [] {
      assert FileName(key)[|TXT|..] == [];
    } else {
      StripStep(key);
      if TXT <= FileName(key) {
        BeginsWithTxt(key);
        assert false;
      }
      if Contains(key[1..], TXT) {
        ContainedInTail(key);
        assert false;
      }
      StripOfClean(key[1..]);
      assert key == [key[0]] + key[1..];
    }
  }

  lemma BeginsWithTxt(key: string)
    requires key != [] && TXT <= FileName(key)
    ensures Contains(key, TXT)
  {
    TxtDoesNotStraddle(key);
    assert key[0..] == key;
  }

  /** The suffix cannot begin inside a non-empty key and end behind it. */
  lemma TxtDoesNotStraddle(key: string)
    requires key != [] && TXT <= FileName(key)
    ensures TXT <= key
  {
    var name := FileName(key);
    assert name[|key|] == '.';
    assert name[1] == 't' && name[2] == 'x' && name[3] == 't';
    assert |key| >= 4;
    assert name[..4] == key[..4];
  }

  lemma ContainedInTail(key: string)
    requires key != [] && Contains(key[1..], TXT)
    ensures Contains(key, TXT)
  {
    var i :| 0 <= i <= |key[1..]| - |TXT| && TXT <= key[1..][i..];
    assert key[i + 1..] == key[1..][i..];
  }

  lemma {:induction false} StripOfUnclean(key: string)
    requires Contains(key, TXT)
    ensures |StripTxt(FileName(key))| < |key|
    decreases |key|, 0
  {
    hide StripTxt;
    var i :| 0 <= i <= |key| - |TXT| && TXT <= key[i..];
    StripStep(key);
    if TXT <= key {
      StripShortens(key[|TXT|..]);
    } else if TXT <= FileName(key) {
      TxtDoesNotStraddle(key);
      assert false;
    } else {
      FoundLater(key, i);
      StripOfUnclean(key[1..]);
    }
  }

  lemma FoundLater(key: string, i: int)
    requires 0 <= i <= |key| - |TXT| && TXT <= key[i..] && !(TXT <= key)
    ensures key != [] && Contains(key[1..], TXT)
  {
    assert key[0..] == key;
    assert i > 0;
    assert key[1..][i - 1..] == key[i..];
  }

  lemma StripShortens(key: string)
    ensures |StripTxt(FileName(key))| <= |key|
    decreases |key|, 1
  {
    if Contains(key, TXT) {
      StripOfUnclean(key);
    } else {
      StripOfClean(key);
    }
  }

  /** Listing gives a key back under its own name exactly when the key does not contain the suffix. */
  lemma StripRoundTrip(key: string)
    ensures StripTxt(FileName(key)) == key <==> !Contains(key, TXT)
  {
    if Contains(key, TXT) {
      StripOfUnclean(key);
    } else {
      StripOfClean(key);
    }
  }

  /** Keys of characters among which there is no dot can be listed. */
  lemma NoDotIsClean(key: string)
    requires '.' !in key
    ensures !Contains(key, TXT)
  {
    forall i | 0 <= i <= |key| - |TXT|
      ensures !(TXT <= key[i..])
    {
      NoPrefix(TXT, key[i..], 0);
    }
  }

  // ---- The store ----

  ghost predicate Clean<V>(files: map<string, V>) {
    forall name :: name in files ==> FileName(StripTxt(name)) == name
  }

  /** The keys and values that a directory of files stands for. */
  ghost function Contents<V>(files: map<string, V>): (r: map<string, V>)
    requires Clean(files)
    ensures forall key :: key in r <==> FileName(key) in files && StripTxt(FileName(key)) == key
    ensures forall key :: key in r ==> r[key] == files[FileName(key)]
  {
    map name | name in files :: StripTxt(name) := files[name]
  }

  /** The keys that are found for a prefix among some file names. */
  function Listing(names: seq<string>, prefix: string): seq<string> {
    if names == [] then []
    else
      var before, key := Listing(names[..|names| - 1], prefix), StripTxt(names[|names| - 1]);
      if prefix <= key then before + [key] else before
  }

  lemma {:induction false} ListingMembers(names: seq<string>, prefix: string)
    ensures forall key :: key in Listing(names, prefix) <==> exists name :: name in names && StripTxt(name) == key && prefix <= key
  {
    if names != [] {
      var front, last := names[..|names| - 1], names[|names| - 1];
      assert names == front + [last];
      assert last in names;
      ListingMembers(front, prefix);
      forall key
        ensures key in Listing(names, prefix) <==> exists name :: name in names && StripTxt(name) == key && prefix <= key
      {
        if key in Listing(front, prefix) {
          var name :| name in front && StripTxt(name) == key && prefix <= key;
          assert name in names;
        }
        if name :| name in names && StripTxt(name) == key && prefix <= key {
          assert name in front || name == last;
        }
      }
    }
  }

  /** In a clean directory, a listing gives exactly the keys with the prefix, once each. */
  lemma {:induction false} ListingIsExact<V>(files: map<string, V>, names: seq<string>, prefix: string)
    requires Clean(files) && NoDuplicates(names) && forall name :: name in names ==> name in files
    ensures NoDuplicates(Listing(names, prefix))
    ensures forall key :: key in Listing(names, prefix) <==> FileName(key) in names && StripTxt(FileName(key)) == key && prefix <= key
  {
    hide StripTxt, FileName;
    if names != [] {
      var front, last := names[..|names| - 1], names[|names| - 1];
      assert names == front + [last];
      assert last in names && last !in front;
      ListingIsExact(files, front, prefix);
    }
  }

  function Names(keys: seq<string>): (r: set<string>)
    ensures forall name :: name in r <==> exists key :: key in keys && FileName(key) == name
  {
    set key | key in keys :: FileName(key)
  }

  /** How many of the keys are deleted: all of them, or those before the first that has no file any more. */
  function Deleted<V>(files: map<string, V>, keys: seq<string>): (n: nat)
    ensures n <= |keys|
  {
    if keys == [] then 0
    else if FileName(keys[0]) in files then 1 + Deleted(files - {FileName(keys[0])}, keys[1..])
    else 0
  }

  /** When every key is there, and none is listed twice, all are deleted. */
  lemma {:induction false} AllDeleted<V>(files: map<string, V>, keys: seq<string>)
    requires NoDuplicates(keys) && forall key :: key in keys ==> FileName(key) in files
    ensures Deleted(files, keys) == |keys|
  {
    if keys != [] {
      var rest := files - {FileName(keys[0])};
      forall key | key in keys[1..]
        ensures FileName(key) in rest
      {
        assert key in keys && key != keys[0];
      }
      AllDeleted(rest, keys[1..]);
    }
  }

  lemma FileNameInjective(a: string, b: string)
    requires FileName(a) == FileName(b)
    ensures a == b
  {
    assert FileName(a)[..|a|] == a && FileName(b)[..|b|] == b;
  }

  /** What reading some keys gives. A key without a file is reported under the name of the file it lacks. */
  function Readings<V>(files: map<string, V>, keys: seq<string>): map<string, Option<V>> {
    if keys == [] then map[]
    else
      var before, key := Readings(files, keys[..|keys| - 1]), keys[|keys| - 1];
      if FileName(key) in files then before[key := Some(files[FileName(key)])] else before[FileName(key) := None]
  }

  /** Keys that are there are read under their own names. */
  lemma {:induction false} ReadingsOfPresent<V>(files: map<string, V>, keys: seq<string>)
    requires forall key :: key in keys ==> FileName(key) in files
    ensures forall key :: key in Readings(files, keys) <==> key in keys
    ensures forall key :: key in keys ==> Readings(files, keys)[key] == Some(files[FileName(key)])
  {
    if keys != [] {
      var front, last := keys[..|keys| - 1], keys[|keys| - 1];
      assert keys == front + [last];
      ReadingsOfPresent(files, front);
    }
  }

  /** Whether writing some values writes the file `name`. */
  predicate Writes<V>(values: map<string, V>, name: string) {
    KeyOf(name) in values && FileName(KeyOf(name)) == name
  }

  /** The directory after values have been written, each to its own file. */
  function Written<V>(files: map<string, V>, values: map<string, V>): (r: map<string, V>)
    ensures forall name :: name in r <==> name in files || Writes(values, name)
    ensures forall name :: name in r ==> r[name] == if Writes(values, name) then values[KeyOf(name)] else files[name]
  {
    hide FileName, KeyOf;
    files + map key | key in values :: FileName(key) := values[key]
  }

  /** Writing clean keys keeps the directory clean and overwrites the contents key by key. */
  lemma WrittenContents<V>(files: map<string, V>, values: map<string, V>)
    requires Clean(files) && forall key :: key in values ==> !Contains(key, TXT)
    ensures Clean(Written(files, values))
    ensures Contents(Written(files, values)) == Contents(files) + values
  {
    hide FileName, KeyOf, StripTxt, Contains, Contents, Clean;
    forall key | key in values
      ensures StripTxt(FileName(key)) == key
    {
      StripRoundTrip(key);
    }
    WrittenIsClean(files, values);
    var r := Written(files, values);
    forall key
      ensures key in Contents(r) <==> key in Contents(files) || key in values
    {
      assert FileName(key) in r <==> FileName(key) in files || key in values;
    }
  }

  lemma WrittenIsClean<V>(files: map<string, V>, values: map<string, V>)
    requires Clean(files) && forall key :: key in values ==> StripTxt(FileName(key)) == key
    ensures Clean(Written(files, values))
  {
    hide FileName, KeyOf, StripTxt;
  }

  /** Deleting clean keys removes them from the contents. */
  lemma DeletedContents<V>(files: map<string, V>, keys: seq<string>)
    requires Clean(files)
    ensures Clean(files - Names(keys))
    ensures Contents(files - Names(keys)) == Contents(files) - set key | key in keys
  {
    hide FileName, KeyOf, StripTxt;
    var r := files - Names(keys);
    assert Clean(r);
    forall key | key in Contents(files)
      ensures key in Contents(r) <==> key !in keys
    {
      if FileName(key) in Names(keys) {
        var k :| k in keys && FileName(k) == FileName(key);
        FileNameInjective(k, key);
      }
    }
  }

  /** FilePersistence; `files` is the directory. Its reads and writes are taken to succeed, except the removal of a
      file that does not exist. */
  class FilePersistence<V> {
    var files: map<string, V>

    constructor ()
      ensures files == map[]
    {
      files := map[];
    }

    /** The file names in some order. */
    method ReadDir() returns (names: seq<string>)
      ensures NoDuplicates(names)
      ensures forall name :: name in names <==> name in files
    {
      names := [];
      var todo := files.Keys;
      while todo != {}
        invariant NoDuplicates(names)
        invariant todo <= files.Keys
        invariant forall name :: name in names <==> name in files.Keys - todo
        decreases todo
      {
        var name :| name in todo;
        assert name !in names;
        names, todo := names + [name], todo - {name};
      }
    }

    /** The names of all files, without the suffix wherever it occurs, that begin with the prefix. */
    method ListKeysByPrefix(prefix: string) returns (result: seq<string>)
      ensures forall key :: key in result <==> exists name :: name in files && StripTxt(name) == key && prefix <= key
      ensures Clean(files) ==> NoDuplicates(result)
      ensures Clean(files) ==> forall key :: key in result <==> key in Contents(files) && prefix <= key
    {
      var names := ReadDir();
      result := [];
      for i := 0 to |names|
        invariant result == Listing(names[..i], prefix)
      {
        assert names[..i + 1][..i] == names[..i];
        var noTxtName := StripTxt(names[i]);
        if prefix <= noTxtName {
          result := result + [noTxtName];
        }
      }
      assert names[..|names|] == names;
      ListingMembers(names, prefix);
      if Clean(files) {
        ListingIsExact(files, names, prefix);
      }
    }

    /** Deletion stops at the first key that has no file. */
    method DeleteByKey(keys: seq<string>) returns (ok: bool)
      modifies this
      ensures files == old(files) - Names(keys[..Deleted(old(files), keys)])
      ensures ok <==> Deleted(old(files), keys) == |keys|
    {
      ghost var n := Deleted(files, keys);
      for i := 0 to |keys|
        invariant i <= n && n == i + Deleted(files, keys[i..])
        invariant files == old(files) - Names(keys[..i])
      {
        if FileName(keys[i]) !in files {
          return false;
        }
        assert keys[i..][1..] == keys[i + 1..];
        assert keys[..i + 1] == keys[..i] + [keys[i]];
        assert Names(keys[..i + 1]) == Names(keys[..i]) + {FileName(keys[i])};
        files := files - {FileName(keys[i])};
      }
      return true;
    }

    method ReadValues(keys: seq<string>) returns (result: map<string, Option<V>>)
      ensures result == Readings(files, keys)
    {
      result := map[];
      for i := 0 to |keys|
        invariant result == Readings(files, keys[..i])
      {
        assert keys[..i + 1][..i] == keys[..i];
        if FileName(keys[i]) !in files {
          result := result[FileName(keys[i]) := None];
        } else {
          result := result[keys[i] := Some(files[FileName(keys[i])])];
        }
      }
      assert keys[..|keys|] == keys;
    }

    method WriteValues(values: map<string, V>)
      modifies this
      ensures files == Written(old(files), values)
    {
      hide FileName, KeyOf;
      var todo := values.Keys;
      while todo != {}
        invariant todo <= values.Keys
        invariant forall name :: name in files <==> name in old(files) || (Writes(values, name) && KeyOf(name) !in todo)
        invariant forall name :: name in files ==>
          files[name] == if Writes(values, name) && KeyOf(name) !in todo then values[KeyOf(name)] else old(files)[name]
        decreases todo
      {
        var key :| key in todo;
        files := files[FileName(key) := values[key]];
        todo := todo - {key};
      }
    }
  }

  /** Remove keys that are there. */
  method RemoveKeys<V>(store: FilePersistence<V>, keys: seq<string>)
    requires Clean(store.files) && NoDuplicates(keys) && forall key :: key in keys ==> key in Contents(store.files)
    modifies store
    ensures Clean(store.files)
    ensures Contents(store.files) == old(Contents(store.files)) - set key | key in keys
  {
    hide FileName, StripTxt;
    AllDeleted(store.files, keys);
    DeletedContents(store.files, keys);
    assert keys[..|keys|] == keys;
    var ok := store.DeleteByKey(keys);
  }
}
