/**
  The strings `UploadFileHandler` builds: the map key "uid:name" and the file name
  "uid_name.tmp". The key determines the user and the sanitised name; the file name does so up to
  what the file system ignores, and cannot leave its directory.
*/
module SpoolKeys {
  import Spool

  function Digits(n: nat): (s: string)
    ensures |s| > 0 && forall c | c in s :: '0' <= c <= '9'
  {
    if n < 10 then [(n + 48) as char] else Digits(n / 10) + [(n % 10 + 48) as char]
  }

  function Value(s: string): int {
    if s == "" then 0 else Value(s[..|s| - 1]) * 10 + (s[|s| - 1] as int - 48)
  }

  lemma {:induction false} ValueDigits(n: nat)
    ensures Value(Digits(n)) == n
  {
    var s := Digits(n);
    if n < 10 {
      assert s[..0] == "";
    } else {
      ValueDigits(n / 10);
      assert s[..|s| - 1] == Digits(n / 10);
    }
  }

  function SpoolKey(uid: nat, safe: string): string { Digits(uid) + ":" + safe }

  function TmpName(uid: nat, safe: string): string { Digits(uid) + "_" + safe + ".tmp" }

  function IndexOf(s: string, sep: char): nat {
    if s == "" || s[0] == sep then 0 else 1 + IndexOf(s[1..], sep)
  }

  lemma {:induction false} IndexOfSeparator(a: string, sep: char, x: string)
    requires sep !in a
    ensures IndexOf(a + [sep] + x, sep) == |a|
  {
    var s := a + [sep] + x;
    if a == "" {
    } else {
      assert s[0] == a[0] && s[1..] == a[1..] + [sep] + x;
      IndexOfSeparator(a[1..], sep, x);
    }
  }

  /** A separator that occurs in neither first part splits a string in one way only. */
  lemma SplitsOnce(a: string, b: string, sep: char, x: string, y: string)
    requires sep !in a && sep !in b && a + [sep] + x == b + [sep] + y
    ensures a == b && x == y
  {
    var s := a + [sep] + x;
    IndexOfSeparator(a, sep, x);
    IndexOfSeparator(b, sep, y);
    assert a == s[..|a|] && b == s[..|b|];
    assert x == s[|a| + 1..] && y == s[|b| + 1..];
  }

  lemma KeysDetermine(uid: nat, name: string, uid': nat, name': string)
    ensures SpoolKey(uid, name) == SpoolKey(uid', name') <==> uid == uid' && name == name'
  {
    ValueDigits(uid);
    ValueDigits(uid');
    if SpoolKey(uid, name) == SpoolKey(uid', name') {
      SplitsOnce(Digits(uid), Digits(uid'), ':', name, name');
    }
  }

  /** The file system leaves digits and the underscore as they are. */
  ghost predicate KeepsDigits(fold: char -> char) {
    fold('_') == '_' && forall c | '0' <= c <= '9' :: fold(c) == c
  }

  lemma {:induction false} FoldedTmpName(fold: char -> char, uid: nat, safe: string)
    requires KeepsDigits(fold)
    ensures Spool.Folded(fold, TmpName(uid, safe))
         == Digits(uid) + ['_'] + (Spool.Folded(fold, safe) + Spool.Folded(fold, ".tmp"))
  {
    forall i | 0 <= i < |Digits(uid)| ensures fold(Digits(uid)[i]) == Digits(uid)[i] {
      assert Digits(uid)[i] in Digits(uid);
    }
  }

  /** Two uploads have the same temporary file if and only if their `FileId` is the same. */
  lemma {:induction false} FilesDetermine(fold: char -> char, uid: nat, name: string, uid': nat, name': string)
    requires KeepsDigits(fold)
    ensures Spool.Folded(fold, TmpName(uid, name)) == Spool.Folded(fold, TmpName(uid', name'))
       <==> Spool.FileId(fold, Spool.Key(uid, name)) == Spool.FileId(fold, Spool.Key(uid', name'))
  {
    var x, x', t := Spool.Folded(fold, name), Spool.Folded(fold, name'), Spool.Folded(fold, ".tmp");
    FoldedTmpName(fold, uid, name);
    FoldedTmpName(fold, uid', name');
    ValueDigits(uid);
    ValueDigits(uid');
    if Spool.Folded(fold, TmpName(uid, name)) == Spool.Folded(fold, TmpName(uid', name')) {
      SplitsOnce(Digits(uid), Digits(uid'), '_', x + t, x' + t);
      assert x == (x + t)[..|x + t| - |t|] == x';
    }
  }

  /** Only separators and colons are replaced, each by an underscore; so a name without them is kept. */
  lemma SafeNameKeeps(name: string)
    ensures var safe := Spool.SafeName(name);
      && |safe| == |name| && Spool.SafeName(safe) == safe
      && (forall i | 0 <= i < |name| :: safe[i] == if name[i] in "/\\:" then '_' else name[i])
    ensures (forall c | c in name :: c !in "/\\:") ==> Spool.SafeName(name) == name
  {
    if forall c | c in name :: c !in "/\\:" {
      forall i | 0 <= i < |name| ensures Spool.SafeName(name)[i] == name[i] { assert name[i] in name; }
    }
  }

  lemma KeyAndFile()
    ensures SpoolKey(15, "a.mp3") == "15:a.mp3" && TmpName(15, "a.mp3") == "15_a.mp3.tmp"
  {
    assert Digits(15) == Digits(1) + "5";
  }

  /** Whatever name the client sends, the temporary file name has no path separator. */
  lemma TmpNameIsOneComponent(uid: nat, name: string)
    ensures var t := TmpName(uid, Spool.SafeName(name)); '/' !in t && '\\' !in t && ':' !in t
  {
    var safe := Spool.SafeName(name);
    forall c | c in safe ensures c != '/' && c != '\\' && c != ':' {
      var i :| 0 <= i < |safe| && safe[i] == c;
      assert c == Spool.SafeChar(name[i]);
    }
  }
}
