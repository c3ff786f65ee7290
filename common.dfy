/** Shared vocabulary: an optional value (Java's nullable references) and the
    string and path predicates both the app and the server use. */
module Common {

  /** A value that may be absent: `None` stands for Java's `null`. */
  datatype Option<+T> = None | Some(value: T)

  /** `s` begins with `prefix`. */
  predicate StartsWith(s: string, prefix: string)
  {
    |prefix| <= |s| && s[..|prefix|] == prefix
  }

  /** `s` ends with `suffix` (`String.endsWith` in Java and JavaScript). */
  predicate EndsWith(s: string, suffix: string)
  {
    |suffix| <= |s| && s[|s| - |suffix|..] == suffix
  }

  /** Putting anything in front of a string keeps its suffix. */
  lemma EndsWithPrepend(s: string, t: string, suffix: string)
    requires EndsWith(t, suffix)
    ensures EndsWith(s + t, suffix)
  {
    assert (s + t)[|s + t| - |suffix|..] == t[|t| - |suffix|..];
  }

  /** The last name segment of a path, as `java.io.File.getName` gives it:
      everything after the last '/'. */
  function BaseName(path: string): (name: string)
    ensures '/' !in name
    ensures EndsWith(path, name)
    ensures |name| == |path| || path[|path| - |name| - 1] == '/'
  {
    if path == [] || path[|path| - 1] == '/' then []
    else
      var init := path[..|path| - 1];
      var name := BaseName(init);
      assert init[|init| - |name|..] == name;
      assert path[|path| - (|name| + 1)..] == name + [path[|path| - 1]];
      name + [path[|path| - 1]]
  }

  /** The name of a file created as `new File(dir + "/" + name)` is `name` again. */
  lemma {:induction false} BaseNameOfChild(dir: string, name: string)
    requires '/' !in name
    ensures BaseName(dir + "/" + name) == name
  {
    if name != [] {
      var init := name[..|name| - 1];
      assert (dir + "/" + name)[..|dir + "/" + name| - 1] == dir + "/" + init;
      BaseNameOfChild(dir, init);
      assert name == init + [name[|name| - 1]];
    }
  }
}
