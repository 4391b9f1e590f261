/**
 The visibility filter of the report: unless verbose output was asked for,
 pipes and files under the usual system directories or with special
 pseudo-names are left out as noise. Sockets are always shown.
 */
module Filter {
  import opened Descriptor

  /** The directory prefixes whose files are noise. */
  const NoisePrefixes: seq<string> :=
    ["/bin/", "/etc/", "/lib/", "/lib64/", "/opt/", "/proc/", "/run/", "/sbin/", "/sys/", "/tmp/", "/usr/"]

  /** The names that are noise only when matched exactly. */
  const NoiseNames: seq<string> := ["/dev/null", "STDOUT", "STDERR", "STDIN", "DUP"]

  /** The same rule stated as two lists: a listed prefix, or a listed exact name. */
  predicate MatchesNoiseRules(path: string) {
    || (exists i :: 0 <= i < |NoisePrefixes| && NoisePrefixes[i] <= path)
    || (exists i :: 0 <= i < |NoiseNames| && NoiseNames[i] == path)
  }

  /**
   The path test, a disjunction of prefix and exact-match tests written in
   the order of the source; it agrees with the two lists on every path.
   */
  predicate IsNoisePath(path: string): (r: bool)
    ensures r <==> MatchesNoiseRules(path)
  {
    var r :=
      || "/bin/" <= path
      || path == "/dev/null"
      || "/etc/" <= path
      || "/lib/" <= path
      || "/lib64/" <= path
      || "/opt/" <= path
      || "/proc/" <= path
      || "/run/" <= path
      || "/sbin/" <= path
      || "/sys/" <= path
      || "/tmp/" <= path
      || "/usr/" <= path
      || path == "STDOUT"
      || path == "STDERR"
      || path == "STDIN"
      || path == "DUP";
    assert r ==> MatchesNoiseRules(path) by {
      if "/bin/" <= path { assert NoisePrefixes[0] <= path; }
      else if "/etc/" <= path { assert NoisePrefixes[1] <= path; }
      else if "/lib/" <= path { assert NoisePrefixes[2] <= path; }
      else if "/lib64/" <= path { assert NoisePrefixes[3] <= path; }
      else if "/opt/" <= path { assert NoisePrefixes[4] <= path; }
      else if "/proc/" <= path { assert NoisePrefixes[5] <= path; }
      else if "/run/" <= path { assert NoisePrefixes[6] <= path; }
      else if "/sbin/" <= path { assert NoisePrefixes[7] <= path; }
      else if "/sys/" <= path { assert NoisePrefixes[8] <= path; }
      else if "/tmp/" <= path { assert NoisePrefixes[9] <= path; }
      else if "/usr/" <= path { assert NoisePrefixes[10] <= path; }
      else if path == "/dev/null" { assert NoiseNames[0] == path; }
      else if path == "STDOUT" { assert NoiseNames[1] == path; }
      else if path == "STDERR" { assert NoiseNames[2] == path; }
      else if path == "STDIN" { assert NoiseNames[3] == path; }
      else if path == "DUP" { assert NoiseNames[4] == path; }
    }
    r
  }

  /**
   Whether the report of a resource is left out: only when not verbose, and
   then for a file with a noise path and for every pipe.
   */
  predicate IsSuppressed(verbose: bool, d: GenericFileDescriptor): (r: bool)
    ensures r <==>
      !verbose && match d
        case Pipe => true
        case File(f) => MatchesNoiseRules(f.path)
        case Socket(_) => false
  {
    if verbose then false
    else if d.File? && IsNoisePath(d.file.path) then true
    else d.Pipe?
  }

  /** In verbose mode nothing is left out. */
  lemma VerboseShowsEverything(d: GenericFileDescriptor)
    ensures !IsSuppressed(true, d)
  {
  }

  /** A socket is never left out. */
  lemma SocketNeverSuppressed(verbose: bool, s: SocketDescription)
    ensures !IsSuppressed(verbose, Socket(s))
  {
  }

  /** A path that differs from `prefix` at some position inside both does not start with it. */
  lemma NotPrefixAt(prefix: string, path: string, i: nat)
    requires i < |prefix| && i < |path| && prefix[i] != path[i]
    ensures !(prefix <= path)
  {
  }

  /** A file under a system directory is noise; the same directory without its slash is not. */
  lemma PrefixNeedsTrailingSlash()
    ensures IsSuppressed(false, File(FileDescription("/etc/passwd")))
    ensures !IsSuppressed(false, File(FileDescription("/etc")))
    ensures !IsSuppressed(false, File(FileDescription("/etcetera")))
  {
    assert "/etc/" <= "/etc/passwd";
    assert !("/etc/" <= "/etc");
    var e := "/etcetera";
    NotPrefixAt("/bin/", e, 1);
    NotPrefixAt("/etc/", e, 4);
    NotPrefixAt("/lib/", e, 1);
    NotPrefixAt("/lib64/", e, 1);
    NotPrefixAt("/opt/", e, 1);
    NotPrefixAt("/proc/", e, 1);
    NotPrefixAt("/run/", e, 1);
    NotPrefixAt("/sbin/", e, 1);
    NotPrefixAt("/sys/", e, 1);
    NotPrefixAt("/tmp/", e, 1);
    NotPrefixAt("/usr/", e, 1);
  }

  /** The pseudo-names are matched exactly, not as prefixes. */
  lemma NamesMatchExactly()
    ensures IsSuppressed(false, File(FileDescription("STDOUT")))
    ensures IsSuppressed(false, File(FileDescription("/dev/null")))
    ensures !IsSuppressed(false, File(FileDescription("STDOUT2")))
    ensures !IsSuppressed(false, File(FileDescription("/dev/null.bak")))
  {
    NoNoisePrefixFromSecondChar("STDOUT2");
    NoNoisePrefixFromSecondChar("/dev/null.bak");
  }

  /** An ordinary user file is shown. */
  lemma HomeFileShown()
    ensures !IsSuppressed(false, File(FileDescription("/home/user/data.bin")))
  {
    NoNoisePrefixFromSecondChar("/home/user/data.bin");
  }

  /** No noise prefix fits a path that does not start with '/' or whose second character starts none of them. */
  lemma NoNoisePrefixFromSecondChar(path: string)
    requires |path| >= 2
    requires path[0] != '/' || path[1] !in {'b', 'e', 'l', 'o', 'p', 'r', 's', 't', 'u'}
    ensures forall i :: 0 <= i < |NoisePrefixes| ==> !(NoisePrefixes[i] <= path)
  {
    var j := if path[0] != '/' then 0 else 1;
    forall i | 0 <= i < |NoisePrefixes|
      ensures !(NoisePrefixes[i] <= path)
    {
      NotPrefixAt(NoisePrefixes[i], path, j);
    }
  }
}
