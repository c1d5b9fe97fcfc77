/**
 * services/session_service.py: the in-memory registry mapping an audio session id
 * to the paths of the audio files produced for it, and the clean-up that deletes
 * those files. The local disk is modelled as the set of paths that exist plus the
 * ordered log of removals performed.
 */
module AudioSessions {

  /** The audio files on disk, as far as `os.path.exists` and `os.remove` see them. */
  class FileSystem {
    var files: set<string>
    /** Every path passed to `os.remove`, in call order. */
    var removed: seq<string>

    constructor (initial: set<string>)
      ensures files == initial && removed == []
    {
      files := initial;
      removed := [];
    }

    /** `os.path.exists(path)`. */
    predicate Exists(path: string)
      reads this
    {
      path in files
    }

    /** `os.remove(path)` on a path that exists. */
    method Remove(path: string)
      requires path in files
      modifies this
      ensures files == old(files) - {path}
      ensures removed == old(removed) + [path]
    {
      files := files - {path};
      removed := removed + [path];
    }
  }

  function Elements(paths: seq<string>): set<string>
  {
    set p | p in paths
  }

  /**
   * The removals made by walking `paths` in order and deleting each one that still
   * exists, starting from the files `present`: a path that existed is deleted at its
   * first occurrence; a repeated path no longer exists when met again.
   */
  function Deletions(paths: seq<string>, present: set<string>): seq<string>
  {
    if paths == [] then []
    else
      var init, last := paths[..|paths| - 1], paths[|paths| - 1];
      Deletions(init, present) + (if last in present && last !in init then [last] else [])
  }

  /** Exactly the recorded paths that existed are deleted. */
  lemma {:induction false} DeletionsExactly(paths: seq<string>, present: set<string>)
    ensures forall p :: p in Deletions(paths, present) <==> p in paths && p in present
  {
    if paths != [] {
      var init, last := paths[..|paths| - 1], paths[|paths| - 1];
      DeletionsExactly(init, present);
      assert paths == init + [last];
    }
  }

  predicate NoRepeats(s: seq<string>)
  {
    forall i, j :: 0 <= i < j < |s| ==> s[i] != s[j]
  }

  /** No path is deleted twice, even when it was recorded twice. */
  lemma {:induction false} DeletionsDistinct(paths: seq<string>, present: set<string>)
    ensures NoRepeats(Deletions(paths, present))
  {
    if paths != [] {
      var init, last := paths[..|paths| - 1], paths[|paths| - 1];
      DeletionsDistinct(init, present);
      DeletionsExactly(init, present);
      var d0 := Deletions(init, present);
      var d := Deletions(paths, present);
      assert d[..|d0|] == d0;
      forall i, j | 0 <= i < j < |d|
        ensures d[i] != d[j]
      {
        if j >= |d0| {
          assert d[j] == last && last !in init;
          assert d[i] == d0[i] && d0[i] in d0;
          assert d0[i] in init;
        } else {
          assert d[i] == d0[i] && d[j] == d0[j];
          assert d0[i] != d0[j];
        }
      }
    }
  }

  /** The `sessions` dictionary. */
  class AudioSessions {
    var sessions: map<string, seq<string>>

    constructor ()
      ensures sessions == map[]
    {
      sessions := map[];
    }

    /** `create_session()`, with the id `uuid.uuid4()` produced passed in. */
    method CreateSession(uuid: string) returns (id: string)
      modifies this
      ensures id == uuid
      ensures sessions == old(sessions)[uuid := []]
    {
      id := uuid;
      sessions := sessions[id := []];
    }

    /** `add_audio_to_session(id, path)`: append to a known session; ignore an unknown id. */
    method AddAudioToSession(id: string, path: string)
      modifies this
      ensures id in old(sessions) ==> sessions == old(sessions)[id := old(sessions)[id] + [path]]
      ensures id !in old(sessions) ==> sessions == old(sessions)
    {
      if id in sessions {
        sessions := sessions[id := sessions[id] + [path]];
      }
    }

    /**
     * `cleanup_session(id)`: for a known id, delete each recorded file that exists,
     * drop the entry and answer true; for an unknown id answer false and touch nothing.
     */
    method CleanupSession(id: string, fs: FileSystem) returns (ok: bool)
      modifies this, fs
      ensures ok == (id in old(sessions))
      ensures ok ==> sessions == old(sessions) - {id}
      ensures ok ==> fs.files == old(fs.files) - Elements(old(sessions)[id])
      ensures ok ==> fs.removed == old(fs.removed) + Deletions(old(sessions)[id], old(fs.files))
      ensures !ok ==> sessions == old(sessions) && fs.files == old(fs.files) && fs.removed == old(fs.removed)
    {
      if id !in sessions {
        return false;
      }
      var paths := sessions[id];
      var k := 0;
      while k < |paths|
        invariant 0 <= k <= |paths|
        invariant sessions == old(sessions)
        invariant fs.files == old(fs.files) - Elements(paths[..k])
        invariant fs.removed == old(fs.removed) + Deletions(paths[..k], old(fs.files))
      {
        assert paths[..k + 1][..k] == paths[..k];
        assert Elements(paths[..k + 1]) == Elements(paths[..k]) + {paths[k]};
        if fs.Exists(paths[k]) {
          fs.Remove(paths[k]);
        }
        k := k + 1;
      }
      assert paths[..k] == paths;
      sessions := sessions - {id};
      ok := true;
    }

    /** `get_session_files(id)`: the recorded paths, or [] for an unknown id. */
    method GetSessionFiles(id: string) returns (paths: seq<string>)
      ensures id in sessions ==> paths == sessions[id]
      ensures id !in sessions ==> paths == []
    {
      paths := if id in sessions then sessions[id] else [];
    }
  }
}
