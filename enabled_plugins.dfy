/**
 * The enabled-plugins list of a config document and the duplicate-filtered
 * append that adds the default plugins to it.
 */
module EnabledPlugins {

  /** An attribute that may be absent from a document (`undefined`). */
  datatype Option<T> = None | Some(value: T)

  /** No name occurs twice in the list. */
  predicate NoDuplicates(s: seq<string>)
  {
    forall i, j :: 0 <= i < j < |s| ==> s[i] != s[j]
  }

  /**
   * The list after walking `defaults` in order and pushing each name that the
   * list, as it has grown so far, does not include yet. Defined on the last
   * default so that it follows the loop one step at a time. Each default
   * pushes at most one name.
   */
  function Merge(list: seq<string>, defaults: seq<string>): (merged: seq<string>)
    ensures |list| <= |merged| <= |list| + |defaults|
    decreases |defaults|
  {
    if defaults == [] then list
    else
      var grown := Merge(list, defaults[..|defaults| - 1]);
      var name := defaults[|defaults| - 1];
      if name in grown then grown else grown + [name]
  }

  /**
   * Reference definition of what the merge appends: the defaults, in order,
   * keeping a name only when the ORIGINAL list lacks it and no earlier
   * default carried it.
   */
  function Fresh(list: seq<string>, defaults: seq<string>): (added: seq<string>)
    decreases |defaults|
  {
    if defaults == [] then []
    else
      var earlier := defaults[..|defaults| - 1];
      var name := defaults[|defaults| - 1];
      Fresh(list, earlier) + (if name in list || name in earlier then [] else [name])
  }

  /** The appended names are exactly the defaults that the list lacked. */
  lemma {:induction false} FreshMembership(list: seq<string>, defaults: seq<string>)
    ensures forall x :: x in Fresh(list, defaults) <==> x in defaults && x !in list
    decreases |defaults|
  {
    if defaults != [] {
      var earlier := defaults[..|defaults| - 1];
      FreshMembership(list, earlier);
      assert defaults == earlier + [defaults[|defaults| - 1]];
    }
  }

  /** A default repeated in the registry result is appended at most once. */
  lemma {:induction false} FreshNoDuplicates(list: seq<string>, defaults: seq<string>)
    ensures NoDuplicates(Fresh(list, defaults))
    decreases |defaults|
  {
    if defaults != [] {
      var earlier := defaults[..|defaults| - 1];
      FreshNoDuplicates(list, earlier);
      FreshMembership(list, earlier);
    }
  }

  /**
   * Checking each default against the growing list is the same as checking it
   * against the original list and the earlier defaults: the merge is the
   * original list followed by the fresh names.
   */
  lemma {:induction false} MergeIsListThenFresh(list: seq<string>, defaults: seq<string>)
    ensures Merge(list, defaults) == list + Fresh(list, defaults)
    decreases |defaults|
  {
    if defaults != [] {
      var earlier := defaults[..|defaults| - 1];
      MergeIsListThenFresh(list, earlier);
      FreshMembership(list, earlier);
    }
  }

  /** Existing entries are kept, in their order, at the front of the list. */
  lemma {:induction false} MergeKeepsPrefix(list: seq<string>, defaults: seq<string>)
    ensures list <= Merge(list, defaults)
  {
    MergeIsListThenFresh(list, defaults);
  }

  /** After the merge a name is present exactly when it was listed or is a default. */
  lemma {:induction false} MergeMembership(list: seq<string>, defaults: seq<string>)
    ensures forall x :: x in Merge(list, defaults) <==> x in list || x in defaults
  {
    MergeIsListThenFresh(list, defaults);
    FreshMembership(list, defaults);
  }

  /** Concatenating two duplicate-free lists with no name in common. */
  lemma NoDuplicatesAppend(a: seq<string>, b: seq<string>)
    requires NoDuplicates(a) && NoDuplicates(b)
    requires forall x :: x in b ==> x !in a
    ensures NoDuplicates(a + b)
  {
    forall i, j | 0 <= i < j < |a + b|
      ensures (a + b)[i] != (a + b)[j]
    {
      if j >= |a| && i < |a| {
        assert (a + b)[j] == b[j - |a|];
        assert b[j - |a|] in b;
      } else if i >= |a| {
        assert (a + b)[i] == b[i - |a|] && (a + b)[j] == b[j - |a|];
      }
    }
  }

  /** A duplicate-free list stays duplicate-free. */
  lemma {:induction false} MergeNoDuplicates(list: seq<string>, defaults: seq<string>)
    requires NoDuplicates(list)
    ensures NoDuplicates(Merge(list, defaults))
  {
    MergeIsListThenFresh(list, defaults);
    FreshMembership(list, defaults);
    FreshNoDuplicates(list, defaults);
    NoDuplicatesAppend(list, Fresh(list, defaults));
  }

  /** When every default is already enabled the list is left as it was. */
  lemma {:induction false} MergeAllPresent(list: seq<string>, defaults: seq<string>)
    requires forall x :: x in defaults ==> x in list
    ensures Merge(list, defaults) == list
    decreases |defaults|
  {
    if defaults != [] {
      MergeAllPresent(list, defaults[..|defaults| - 1]);
    }
  }

  /** Merging the same defaults a second time changes nothing. */
  lemma {:induction false} MergeIdempotent(list: seq<string>, defaults: seq<string>)
    ensures Merge(Merge(list, defaults), defaults) == Merge(list, defaults)
  {
    MergeMembership(list, defaults);
    MergeAllPresent(Merge(list, defaults), defaults);
  }
}
