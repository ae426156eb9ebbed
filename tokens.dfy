/** `parse_tokens`: substitutes `$NAME` variables into every word of a
    command line, rewrites the words naming existing paths to absolute form
    in the caller's list, and derives the sets of files and directories to
    watch. */
module Tokens {
  import opened Base
  import opened Strings
  import opened Paths
  import opened FileSystem

  /** `env_vars` in iteration order, with `str()` already applied to each value. */
  type Env = seq<(string, string)>

  /** The set of watched files and directories `parse_tokens` returns. */
  datatype Watched = Watched(files: set<Path>, dirs: set<Path>)

  /** `field[-1]` on a word that is empty once substituted. */
  datatype TokenError = IndexError(index: nat)

  /** The inner loop: for each variable in turn, `replace` when `$NAME` occurs. */
  function Substitute(field: string, env: Env): string
    decreases |env|
  {
    if env == [] then field
    else
      var f := Substitute(field, env[..|env| - 1]);
      var v := "$" + env[|env| - 1].0;
      if Contains(f, v) then Replace(f, v, env[|env| - 1].1) else f
  }

  /** A word with no bound `$NAME` in it is left as it is. */
  lemma {:induction false} SubstituteUnbound(field: string, env: Env)
    requires forall k :: 0 <= k < |env| ==> !Contains(field, "$" + env[k].0)
    ensures Substitute(field, env) == field
    decreases |env|
  {
    if env != [] {
      var n := |env| - 1;
      SubstituteUnbound(field, env[..n]);
      assert !Contains(field, "$" + env[n].0);
    }
  }

  /** Substitution is a single left-to-right `replace`: a variable can survive
      it, as in `$$AA` with `A` bound to the empty string. */
  lemma SubstituteCanLeaveVariable()
    ensures Substitute("$$AA", [("A", "")]) == "$A"
  {
    var env: Env := [("A", "")];
    assert env[..0] == [];
    assert Substitute("$$AA", env[..0]) == "$$AA";
    assert "$" + env[0].0 == "$A";
    assert OccursAt("$$AA", "$A", 1);
    assert Contains("$$AA", "$A");
    assert "$$AA"[..2] != "$A" && "$$AA"[1..] == "$AA";
    assert Replace("$$AA", "$A", "") == "$" + Replace("$AA", "$A", "");
    assert "$AA"[..2] == "$A" && "$AA"[2..] == "A";
    assert Replace("$AA", "$A", "") == "" + Replace("A", "$A", "");
    assert Replace("$$AA", "$A", "") == "$A";
    assert Substitute("$$AA", env) == Replace("$$AA", "$A", "");
  }

  /** A word once substituted: whether it ended in ';' and the absolute path
      it names with every ';' removed. */
  datatype Token = Token(word: string, hadSemicolon: bool, abs: Path)

  function Resolve(cwd: Path, word: string): (t: Token)
    requires word != ""
    ensures t.word == word && t.hadSemicolon == (word[|word| - 1] == ';')
    ensures t.hadSemicolon ==> ';' !in StripSemicolons(word) && t.abs == Abspath(cwd, StripSemicolons(word))
    ensures !t.hadSemicolon ==> t.abs == Abspath(cwd, word)
  {
    var had := word[|word| - 1] == ';';
    ReplaceDeletes(word, ';');
    Token(word, had, Abspath(cwd, if had then StripSemicolons(word) else word))
  }

  /** `field.replace(";", "")` */
  function StripSemicolons(word: string): string {
    Replace(word, ";", "")
  }

  /** What is written back into the caller's list: the absolute path when it
      exists, with its ';' re-attached; otherwise the substituted word. */
  function Rewritten(fs: FS, t: Token): string {
    if Exists(fs, t.abs) then (if t.hadSemicolon then t.abs + ";" else t.abs) else t.word
  }

  /** `dirs_l.append(i_abspath)` for each child directory. */
  function ChildDir(fs: FS): Path -> seq<Path> {
    i => if IsDir(fs, i) then [i] else []
  }

  function TokenFiles(fs: FS, t: Token): seq<Path> {
    if IsFile(fs, t.abs) then [t.abs] else []
  }

  /** The parent directory a token appends (lines for the path that exists
      and for the one that does not). */
  function ParentDirs(fs: FS, ignoreParents: bool, t: Token): seq<Path> {
    if !ignoreParents && (Exists(fs, t.abs) || Exists(fs, Dirname(t.abs))) then [Dirname(t.abs)] else []
  }

  /** What an existing file or directory appends besides. */
  function KindDirs(fs: FS, ignoreParents: bool, t: Token): seq<Path> {
    if IsFile(fs, t.abs) then (if ignoreParents then [] else [Dirname(t.abs)])
    else if IsDir(fs, t.abs) then [t.abs] + ConcatMap(ChildDir(fs), Children(fs, t.abs))
    else []
  }

  /** The directories one token appends, in program order. */
  function TokenDirs(fs: FS, ignoreParents: bool, t: Token): seq<Path> {
    ParentDirs(fs, ignoreParents, t) + KindDirs(fs, ignoreParents, t)
  }

  function RewriteField(fs: FS, cwd: Path, env: Env, field: string): string {
    var w := Substitute(field, env);
    if w == "" then w else Rewritten(fs, Resolve(cwd, w))
  }

  function FieldFiles(fs: FS, cwd: Path, env: Env, field: string): seq<Path> {
    var w := Substitute(field, env);
    if w == "" then [] else TokenFiles(fs, Resolve(cwd, w))
  }

  function FieldDirs(fs: FS, cwd: Path, env: Env, ignoreParents: bool, field: string): seq<Path> {
    var w := Substitute(field, env);
    if w == "" then [] else TokenDirs(fs, ignoreParents, Resolve(cwd, w))
  }

  function FilesOf(fs: FS, cwd: Path, env: Env): string -> seq<Path> {
    f => FieldFiles(fs, cwd, env, f)
  }

  function DirsOf(fs: FS, cwd: Path, env: Env, ignoreParents: bool): string -> seq<Path> {
    f => FieldDirs(fs, cwd, env, ignoreParents, f)
  }

  /** The lists after one more field. */
  lemma FieldsSnoc(fs: FS, cwd: Path, env: Env, ignoreParents: bool, fields: seq<string>, i: nat)
    requires i < |fields|
    ensures ConcatMap(FilesOf(fs, cwd, env), fields[..i + 1]) ==
            ConcatMap(FilesOf(fs, cwd, env), fields[..i]) + FieldFiles(fs, cwd, env, fields[i])
    ensures ConcatMap(DirsOf(fs, cwd, env, ignoreParents), fields[..i + 1]) ==
            ConcatMap(DirsOf(fs, cwd, env, ignoreParents), fields[..i]) + FieldDirs(fs, cwd, env, ignoreParents, fields[i])
  {
    ConcatMapSnoc(FilesOf(fs, cwd, env), fields, i);
    ConcatMapSnoc(DirsOf(fs, cwd, env, ignoreParents), fields, i);
  }

  predicate NoEmptyWord(fields: seq<string>, env: Env) {
    forall k :: 0 <= k < |fields| ==> Substitute(fields[k], env) != ""
  }

  lemma NoEmptyWordSnoc(fields: seq<string>, env: Env, i: nat)
    requires i < |fields| && NoEmptyWord(fields[..i], env) && Substitute(fields[i], env) != ""
    ensures NoEmptyWord(fields[..i + 1], env)
  {
    var next := fields[..i + 1];
    forall k | 0 <= k < i + 1 ensures Substitute(next[k], env) != "" {
      if k < i { assert next[k] == fields[..i][k]; }
    }
  }

  /** `out` is `fields` with each field rewritten, stated on the last field
      so that a loop over the fields extends it one step at a time. */
  predicate RewrittenAll(fs: FS, cwd: Path, env: Env, out: seq<string>, fields: seq<string>) {
    && |out| == |fields|
    && (|fields| == 0 ||
        (&& RewrittenAll(fs, cwd, env, out[..|out| - 1], fields[..|fields| - 1])
         && out[|out| - 1] == RewriteField(fs, cwd, env, fields[|fields| - 1])))
  }

  /** Index by index: each word of `out` is the field at its index, rewritten. */
  lemma {:induction false} RewrittenAllMeans(fs: FS, cwd: Path, env: Env, out: seq<string>, fields: seq<string>)
    ensures RewrittenAll(fs, cwd, env, out, fields) <==>
            |out| == |fields| && forall k :: 0 <= k < |fields| ==> out[k] == RewriteField(fs, cwd, env, fields[k])
  {
    if |out| == |fields| && |fields| > 0 {
      var n := |fields| - 1;
      RewrittenAllMeans(fs, cwd, env, out[..n], fields[..n]);
      assert forall k :: 0 <= k < n ==> out[..n][k] == out[k] && fields[..n][k] == fields[k];
    }
  }

  /** The token of field `k`. */
  function TokenAt(fields: seq<string>, env: Env, cwd: Path, k: nat): Token
    requires NoEmptyWord(fields, env) && k < |fields|
  {
    Resolve(cwd, Substitute(fields[k], env))
  }

  /** `files` is exactly the set of tokens naming an existing regular file. */
  lemma FilesExactly(fs: FS, cwd: Path, env: Env, fields: seq<string>, p: Path)
    requires NoEmptyWord(fields, env)
    ensures p in ConcatMap(FilesOf(fs, cwd, env), fields) <==>
            exists k :: 0 <= k < |fields| && TokenAt(fields, env, cwd, k).abs == p && IsFile(fs, p)
  {
    ConcatMapMember(FilesOf(fs, cwd, env), fields, p);
    forall k | 0 <= k < |fields|
      ensures p in FilesOf(fs, cwd, env)(fields[k]) <==> TokenAt(fields, env, cwd, k).abs == p && IsFile(fs, p)
    {
      assert FilesOf(fs, cwd, env)(fields[k]) == FieldFiles(fs, cwd, env, fields[k]);
    }
  }

  /** Why a token puts `p` into `dirs`: `p` is the token's directory or one of
      its child directories (whether or not parents are ignored), or `p` is
      the parent of a token that exists or whose parent exists. */
  predicate DirReason(fs: FS, ignoreParents: bool, t: Token, p: Path) {
    || (IsDir(fs, t.abs) && (p == t.abs || (p in Children(fs, t.abs) && IsDir(fs, p))))
    || (!ignoreParents && p == Dirname(t.abs) && (Exists(fs, t.abs) || Exists(fs, Dirname(t.abs))))
  }

  lemma ChildDirsExactly(fs: FS, d: Path, p: Path)
    requires IsDir(fs, d)
    ensures p in ConcatMap(ChildDir(fs), Children(fs, d)) <==> p in Children(fs, d) && IsDir(fs, p)
  {
    var cs := Children(fs, d);
    ConcatMapMember(ChildDir(fs), cs, p);
    if p in cs && IsDir(fs, p) {
      var k :| 0 <= k < |cs| && cs[k] == p;
      assert p in ChildDir(fs)(cs[k]);
    }
  }

  lemma TokenDirsExactly(fs: FS, ignoreParents: bool, t: Token, p: Path)
    ensures p in TokenDirs(fs, ignoreParents, t) <==> DirReason(fs, ignoreParents, t, p)
  {
    if IsDir(fs, t.abs) {
      ChildDirsExactly(fs, t.abs, p);
    }
  }

  /** `dirs` is exactly the set of paths some token has a reason for. */
  lemma DirsExactly(fs: FS, cwd: Path, env: Env, ignoreParents: bool, fields: seq<string>, p: Path)
    requires NoEmptyWord(fields, env)
    ensures p in ConcatMap(DirsOf(fs, cwd, env, ignoreParents), fields) <==>
            exists k :: 0 <= k < |fields| && DirReason(fs, ignoreParents, TokenAt(fields, env, cwd, k), p)
  {
    ConcatMapMember(DirsOf(fs, cwd, env, ignoreParents), fields, p);
    forall k | 0 <= k < |fields|
      ensures p in DirsOf(fs, cwd, env, ignoreParents)(fields[k]) <==> DirReason(fs, ignoreParents, TokenAt(fields, env, cwd, k), p)
    {
      assert DirsOf(fs, cwd, env, ignoreParents)(fields[k]) == FieldDirs(fs, cwd, env, ignoreParents, fields[k]);
      TokenDirsExactly(fs, ignoreParents, TokenAt(fields, env, cwd, k), p);
    }
  }

  /** A rewritten word is absolute (but for its re-attached ';'), and its
      path resolves to itself: rewriting is idempotent. */
  lemma RewrittenIsAbsolute(fs: FS, cwd: Path, word: string)
    requires IsAbs(cwd) && word != ""
    requires Exists(fs, Resolve(cwd, word).abs)
    ensures var t := Resolve(cwd, word);
            var w := Rewritten(fs, t);
            IsAbs(w) && w == t.abs + (if t.hadSemicolon then ";" else "") &&
            Abspath(cwd, t.abs) == t.abs
  {
    var t := Resolve(cwd, word);
    AbspathIdempotent(cwd, if t.hadSemicolon then StripSemicolons(word) else word);
  }

  /** `for env_k in env_vars: if '$' + env_k in field: field = field.replace(...)` */
  method SubstituteVars(field: string, env: Env) returns (w: string)
    ensures w == Substitute(field, env)
  {
    w := field;
    var j := 0;
    while j < |env|
      invariant j <= |env|
      invariant w == Substitute(field, env[..j])
    {
      assert env[..j + 1][..j] == env[..j];
      var v := "$" + env[j].0;
      if Contains(w, v) {
        w := Replace(w, v, env[j].1);
      }
      j := j + 1;
    }
    assert env[..j] == env;
  }

  /** `for item in os.listdir(abspath): if os.path.isdir(...): dirs_l.append(...)` */
  method AppendChildDirs(fs: FS, d: Path, dirs: seq<Path>) returns (dirs': seq<Path>)
    requires IsDir(fs, d)
    ensures dirs' == dirs + ConcatMap(ChildDir(fs), Children(fs, d))
  {
    var cs := Children(fs, d);
    dirs' := dirs;
    var c := 0;
    while c < |cs|
      invariant c <= |cs|
      invariant dirs' == dirs + ConcatMap(ChildDir(fs), cs[..c])
    {
      ConcatMapSnoc(ChildDir(fs), cs, c);
      if IsDir(fs, cs[c]) {
        dirs' := dirs' + [cs[c]];
      }
      c := c + 1;
    }
    assert cs[..c] == cs;
  }

  /** `if field[-1] == ";": ...; abspath = os.path.abspath(field)` */
  method ResolveWord(cwd: Path, word: string) returns (t: Token)
    requires word != ""
    ensures t == Resolve(cwd, word)
  {
    var field := word;
    var hadSemicolon := false;
    if field[|field| - 1] == ';' {
      hadSemicolon := true;
      field := Replace(field, ";", "");
    }
    t := Token(word, hadSemicolon, Abspath(cwd, field));
  }

  /** `if os.path.exists(abspath): ... else: ... continue` */
  method WatchParent(fs: FS, ignoreParents: bool, t: Token, dirs: seq<Path>)
      returns (written: string, dirs': seq<Path>)
    ensures written == Rewritten(fs, t)
    ensures dirs' == dirs + ParentDirs(fs, ignoreParents, t)
  {
    written, dirs' := t.word, dirs;
    var abspath := t.abs;
    if abspath in fs {
      if t.hadSemicolon {
        written := abspath + ";";
      } else {
        written := abspath;
      }
      if !ignoreParents {
        dirs' := dirs' + [Dirname(abspath)];
      }
    } else {
      var potentialDir := Dirname(abspath);
      if potentialDir in fs && !ignoreParents {
        dirs' := dirs' + [potentialDir];
      }
    }
  }

  /** `### Files` and `### Dirs` */
  method WatchKind(fs: FS, ignoreParents: bool, t: Token, files: seq<Path>, dirs: seq<Path>)
      returns (files': seq<Path>, dirs': seq<Path>)
    ensures files' == files + TokenFiles(fs, t)
    ensures dirs' == dirs + KindDirs(fs, ignoreParents, t)
  {
    files', dirs' := files, dirs;
    var abspath := t.abs;
    if IsFile(fs, abspath) {
      files' := files' + [abspath];
      if !ignoreParents {
        dirs' := dirs' + [Dirname(abspath)];
      }
    } else if IsDir(fs, abspath) {
      dirs' := dirs' + [abspath];
      dirs' := AppendChildDirs(fs, abspath, dirs');
    }
  }

  /** One resolved token: the word written back and the paths it adds. */
  method WatchToken(fs: FS, ignoreParents: bool, t: Token, files: seq<Path>, dirs: seq<Path>)
      returns (written: string, files': seq<Path>, dirs': seq<Path>)
    ensures written == Rewritten(fs, t)
    ensures files' == files + TokenFiles(fs, t)
    ensures dirs' == dirs + TokenDirs(fs, ignoreParents, t)
  {
    files' := files;
    written, dirs' := WatchParent(fs, ignoreParents, t, dirs);
    if t.abs in fs {
      files', dirs' := WatchKind(fs, ignoreParents, t, files', dirs');
    }
    assert dirs' == dirs + (ParentDirs(fs, ignoreParents, t) + KindDirs(fs, ignoreParents, t));
  }

  /** One field: the substituted word, and when it is not empty, the word
      written back and the lists with the token's paths appended. */
  method ParseField(fs: FS, cwd: Path, env: Env, ignoreParents: bool, field: string, files: seq<Path>, dirs: seq<Path>)
      returns (word: string, written: string, files': seq<Path>, dirs': seq<Path>)
    ensures word == Substitute(field, env)
    ensures word != "" ==> written == RewriteField(fs, cwd, env, field)
    ensures word != "" ==> files' == files + FieldFiles(fs, cwd, env, field)
    ensures word != "" ==> dirs' == dirs + FieldDirs(fs, cwd, env, ignoreParents, field)
  {
    word := SubstituteVars(field, env);
    written, files', dirs' := word, files, dirs;
    if word == "" {
      return;
    }
    var token := ResolveWord(cwd, word);
    written, files', dirs' := WatchToken(fs, ignoreParents, token, files, dirs);
  }

  /** The loop state of `parse_tokens` after field `i` succeeds, from the
      state before it. */
  lemma ParseStep(fs: FS, cwd: Path, env: Env, ignoreParents: bool, orig: seq<string>, i: nat,
                  before: seq<string>, after: seq<string>, fileL: seq<Path>, dirsL: seq<Path>,
                  fileL': seq<Path>, dirsL': seq<Path>)
    requires i < |orig| == |before|
    requires RewrittenAll(fs, cwd, env, before[..i], orig[..i])
    requires forall j :: i <= j < |before| ==> before[j] == orig[j]
    requires fileL == ConcatMap(FilesOf(fs, cwd, env), orig[..i])
    requires dirsL == ConcatMap(DirsOf(fs, cwd, env, ignoreParents), orig[..i])
    requires after == before[i := RewriteField(fs, cwd, env, orig[i])]
    requires fileL' == fileL + FieldFiles(fs, cwd, env, orig[i])
    requires dirsL' == dirsL + FieldDirs(fs, cwd, env, ignoreParents, orig[i])
    ensures RewrittenAll(fs, cwd, env, after[..i + 1], orig[..i + 1])
    ensures forall j :: i + 1 <= j < |after| ==> after[j] == orig[j]
    ensures fileL' == ConcatMap(FilesOf(fs, cwd, env), orig[..i + 1])
    ensures dirsL' == ConcatMap(DirsOf(fs, cwd, env, ignoreParents), orig[..i + 1])
  {
    FieldsSnoc(fs, cwd, env, ignoreParents, orig, i);
    assert after[..i + 1][..i] == before[..i] && orig[..i + 1][..i] == orig[..i];
  }

  /** One pass of the loop of `parse_tokens`: field `i` is substituted and,
      unless it is then empty, rewritten, and the lists grow by its paths. */
  method ParseAt(fields: array<string>, i: nat, env: Env, fs: FS, cwd: Path, ignoreParents: bool,
                 fileL: seq<Path>, dirsL: seq<Path>)
      returns (ok: bool, fileL': seq<Path>, dirsL': seq<Path>)
    requires i < fields.Length
    modifies fields
    ensures ok <==> Substitute(old(fields[i]), env) != ""
    ensures ok ==> fields[..] == old(fields[..])[i := RewriteField(fs, cwd, env, old(fields[i]))]
    ensures !ok ==> fields[..] == old(fields[..])[i := ""]
    ensures ok ==> fileL' == fileL + FieldFiles(fs, cwd, env, old(fields[i]))
    ensures ok ==> dirsL' == dirsL + FieldDirs(fs, cwd, env, ignoreParents, old(fields[i]))
  {
    var word, written;
    word, written, fileL', dirsL' := ParseField(fs, cwd, env, ignoreParents, fields[i], fileL, dirsL);
    fields[i] := word;
    ok := word != "";
    if ok {
      fields[i] := written;
    }
  }

  /** The loop of `parse_tokens`: it stops at the first field `k` whose
      word is empty once substituted, or at the end of `fields`. */
  method ParseFields(fields: array<string>, env: Env, fs: FS, cwd: Path, ignoreParents: bool)
      returns (k: nat, fileL: seq<Path>, dirsL: seq<Path>)
    modifies fields
    ensures k <= fields.Length
    ensures NoEmptyWord(old(fields[..])[..k], env)
    ensures k < fields.Length ==> Substitute(old(fields[k]), env) == "" && fields[k] == ""
    ensures RewrittenAll(fs, cwd, env, fields[..k], old(fields[..])[..k])
    ensures forall j :: k < j < fields.Length ==> fields[j] == old(fields[j])
    ensures fileL == ConcatMap(FilesOf(fs, cwd, env), old(fields[..])[..k])
    ensures dirsL == ConcatMap(DirsOf(fs, cwd, env, ignoreParents), old(fields[..])[..k])
  {
    ghost var orig := fields[..];
    fileL, dirsL := [], [];
    k := 0;
    while k < fields.Length
      invariant k <= fields.Length
      invariant NoEmptyWord(orig[..k], env)
      invariant RewrittenAll(fs, cwd, env, fields[..k], orig[..k])
      invariant forall j :: k <= j < fields.Length ==> fields[j] == orig[j]
      invariant fileL == ConcatMap(FilesOf(fs, cwd, env), orig[..k])
      invariant dirsL == ConcatMap(DirsOf(fs, cwd, env, ignoreParents), orig[..k])
    {
      ghost var before := fields[..];
      var ok, fileL', dirsL' := ParseAt(fields, k, env, fs, cwd, ignoreParents, fileL, dirsL);
      if !ok {
        assert fields[..k] == before[..k];
        return;
      }
      ParseStep(fs, cwd, env, ignoreParents, orig, k, before, fields[..], fileL, dirsL, fileL', dirsL');
      NoEmptyWordSnoc(orig, env, k);
      fileL, dirsL := fileL', dirsL';
      k := k + 1;
    }
  }

  /** `parse_tokens(fields, env_vars, ignore_parents)`: `fields` is rewritten
      in place; a word that is empty once substituted raises at `field[-1]`,
      leaving the earlier words rewritten and that one substituted. */
  method ParseTokens(fields: array<string>, env: Env, fs: FS, cwd: Path, ignoreParents: bool)
      returns (r: Result<Watched, TokenError>)
    modifies fields
    ensures r.Ok? <==> NoEmptyWord(old(fields[..]), env)
    ensures r.Ok? ==> RewrittenAll(fs, cwd, env, fields[..], old(fields[..]))
    ensures r.Ok? ==> r.value.files == set p | p in ConcatMap(FilesOf(fs, cwd, env), old(fields[..]))
    ensures r.Ok? ==> r.value.dirs == set p | p in ConcatMap(DirsOf(fs, cwd, env, ignoreParents), old(fields[..]))
    ensures r.Err? ==> var k := r.error.index;
            && k < fields.Length
            && Substitute(old(fields[k]), env) == ""
            && NoEmptyWord(old(fields[..k]), env)
            && RewrittenAll(fs, cwd, env, fields[..k], old(fields[..k]))
            && fields[k] == ""
            && fields[k + 1..] == old(fields[k + 1..])
  {
    ghost var orig := fields[..];
    var k, fileL, dirsL := ParseFields(fields, env, fs, cwd, ignoreParents);
    if k < fields.Length {
      assert orig[..k] == old(fields[..k]);
      assert fields[k + 1..] == old(fields[k + 1..]);
      assert !NoEmptyWord(orig, env) by {
        assert Substitute(orig[k], env) == "";
      }
      return Err(IndexError(k));
    }
    assert orig[..k] == orig;
    assert fields[..k] == fields[..];
    return Ok(Watched(set p | p in fileL, set p | p in dirsL));
  }
}
