/** The storage handle and its path mapping: logical paths seen by callers are
    turned into keys of the bucket by prepending the working directory, with
    its leading `/` removed, and keys are turned back by stripping it again. */
module Service {
  import opened Wrappers
  import opened GoStrings

  /** The fields of the handle this model reads. Both are fixed when the
      handle is built and never updated afterwards, so the handle is a value;
      the SDK client and the pair policy are not part of this model. */
  datatype Storage = Storage(name: string, workDir: string)

  /** The working directory a handle gets when none is configured. */
  const DefaultWorkDir: string := "/"

  /** The part of `newStorager` that this model keeps: the name, and the
      working directory, which is `/` unless one is supplied. */
  function NewStorage(name: string, workDir: Option<string>): (s: Storage)
    ensures s.name == name
    ensures workDir.Some? ==> s.workDir == workDir.value
    ensures workDir.None? ==> s.workDir == DefaultWorkDir
  {
    Storage(name, if workDir.Some? then workDir.value else DefaultWorkDir)
  }

  /** The key prefix of the handle: the working directory with at most one
      leading `/` removed. */
  function Root(s: Storage): (root: string)
    ensures "/" <= s.workDir ==> s.workDir == "/" + root
    ensures !("/" <= s.workDir) ==> root == s.workDir
  {
    TrimPrefix(s.workDir, "/")
  }

  /** `getAbsPath`: the key of logical path `p`. The key lies under the root,
      and what follows the root is `p` itself. */
  function AbsPath(s: Storage, p: string): (key: string)
    ensures Root(s) <= key
    ensures key[|Root(s)|..] == p
    ensures |key| == |Root(s)| + |p|
  {
    Root(s) + p
  }

  /** `getRelPath`: the logical path of `key`. A key under the root loses the
      root; any other key is returned unchanged. */
  function RelPath(s: Storage, key: string): (p: string)
    ensures Root(s) <= key ==> Root(s) + p == key
    ensures !(Root(s) <= key) ==> p == key
    ensures |p| <= |key|
  {
    TrimPrefix(key, Root(s))
  }

  /** Every logical path survives the trip to a key and back. */
  lemma RelOfAbs(s: Storage, p: string)
    ensures RelPath(s, AbsPath(s, p)) == p
  {
    var key := AbsPath(s, p);
    assert Root(s) + p == key;
  }

  /** A key survives the trip to a logical path and back exactly when it lies
      under the root. */
  lemma AbsOfRel(s: Storage, key: string)
    ensures AbsPath(s, RelPath(s, key)) == key <==> Root(s) <= key
  {
    if !(Root(s) <= key) {
      // the empty root is a prefix of every key, so this root is not empty
      // and prepending it makes the key longer
      assert Root(s) != [];
      assert |AbsPath(s, RelPath(s, key))| > |key|;
    }
  }

  /** The strip does not look for a `/` after the root: with working
      directory `/a`, the key `ab/x`, which is not inside directory `a`,
      becomes the logical path `b/x`. */
  lemma RelPathIgnoresBoundary()
    ensures Root(Storage("", "/a")) == "a"
    ensures RelPath(Storage("", "/a"), "ab/x") == "b/x"
    ensures AbsPath(Storage("", "/a"), "b/x") == "ab/x"
  {
    var s := Storage("", "/a");
    assert "/" <= s.workDir;
    assert "a" <= "ab/x";
  }

  /** Only one leading `/` is removed: working directory `//d` has root `/d`. */
  lemma RootStripsOneSlash()
    ensures Root(Storage("", "//d")) == "/d"
  {
    assert "/" <= "//d";
  }

  /** A handle built without a working directory has the empty root, so both
      mappings are the identity. */
  lemma DefaultWorkDirIsIdentity(name: string, p: string)
    ensures Root(NewStorage(name, None)) == ""
    ensures AbsPath(NewStorage(name, None), p) == p
    ensures RelPath(NewStorage(name, None), p) == p
  {
    assert "/" <= DefaultWorkDir;
  }
}
