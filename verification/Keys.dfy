/** Upload keys: `<user id>:<random id><extension>`, and the two tests the services make on them. */
module Keys {
  function Minted(user: string, id: string, ext: string): string {
    user + ":" + id + ext
  }

  /** A key with a colon must start with the caller's id and a colon; a key without one passes for anybody. */
  predicate PassesOwnerCheck(user: string, key: string) {
    ':' in key ==> user + ":" <= key
  }

  /** The part of a key before its first colon; all of it if there is none. */
  function SeparateUserId(key: string): string {
    if key == "" || key[0] == ':' then "" else [key[0]] + SeparateUserId(key[1..])
  }

  lemma {:induction false} SeparateStopsAtColon(user: string, rest: string)
    requires ':' !in user
    ensures SeparateUserId(user + ":" + rest) == user
  {
    var key := user + ":" + rest;
    if user != "" {
      assert key[0] == user[0] && key[0] in user;
      assert key[1..] == user[1..] + ":" + rest;
      SeparateStopsAtColon(user[1..], rest);
    }
  }

  /** A minted key names its user: the separator finds them, and the owner check passes for nobody else. */
  lemma MintedKeyNamesItsUser(user: string, id: string, ext: string, other: string)
    requires ':' !in user && ':' !in other
    ensures SeparateUserId(Minted(user, id, ext)) == user
    ensures PassesOwnerCheck(other, Minted(user, id, ext)) <==> other == user
  {
    var key := Minted(user, id, ext);
    assert key == user + ":" + (id + ext);
    SeparateStopsAtColon(user, id + ext);
    assert key[|user|] == ':' && ':' in key;
    assert key[..|user| + 1] == user + ":";
    if PassesOwnerCheck(other, key) {
      var rest := key[|other| + 1..];
      assert key == other + ":" + rest;
      SeparateStopsAtColon(other, rest);
    }
  }

  /** `ext` is the suffix of `path` from the last dot of its last element, or empty if there is none. */
  predicate IsExt(path: string, ext: string) {
    if ext == "" then forall i :: 0 <= i < |path| && path[i] == '.' ==> '/' in path[i..]
    else
      && |ext| <= |path| && path[|path| - |ext|..] == ext
      && ext[0] == '.' && '.' !in ext[1..] && '/' !in ext
  }

  /** `filepath.Ext`: the loop walks back from the end and gives up at a slash. */
  method Ext(path: string) returns (ext: string)
    ensures IsExt(path, ext)
  {
    var i := |path| - 1;
    while i >= 0 && path[i] != '/'
      invariant -1 <= i < |path|
      invariant forall k :: i < k < |path| ==> path[k] != '.' && path[k] != '/'
    {
      if path[i] == '.' {
        return path[i..];
      }
      i := i - 1;
    }
    forall k | 0 <= k < |path| && path[k] == '.'
      ensures '/' in path[k..]
    {
      assert path[k..][i - k] == '/';
    }
    ext := "";
  }
}
