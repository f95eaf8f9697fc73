/** Paths as internal/cni uses them: which files hold a CNI configuration (run.go), and the names
    derived from one while it is rewritten (conf.go). */
module CniPaths {
  import opened Text

  /** The directories the installer knows; a path is a directory and a base name. */
  datatype Dir = ConfigDir | TokenDir | BinDir | OtherDir(name: string)

  datatype Path = Path(dir: Dir, base: string)

  /** Go's path.Ext on a base name: from the last dot on. */
  function Ext(base: string): string {
    if base == "" then ""
    else if base[|base| - 1] == '.' then "."
    else
      var ext := Ext(base[..|base| - 1]);
      if ext == "" then "" else ext + [base[|base| - 1]]
  }

  datatype Kind = Conf | Conflist | NotCni

  function KindOf(p: Path): Kind {
    if Ext(p.base) == ".conf" then Conf else if Ext(p.base) == ".conflist" then Conflist else NotCni
  }

  /** isCNIFile. */
  predicate IsCniFile(p: Path) {
    var ext := Ext(p.base);
    ext == ".conflist" || ext == ".conf"
  }

  /** The file a configuration is rewritten to: a `.conf` becomes a `.conflist`. */
  function Destination(p: Path): Path {
    if HasSuffix(p.base, ".conf") then Path(p.dir, p.base + "list") else p
  }

  function Temp(p: Path): Path { Path(p.dir, p.base + ".install") }

  /** The `.conf` whose destination a `.conflist` is. */
  function ConfOf(p: Path): Path
    requires KindOf(p).Conflist?
  {
    ExtIsSuffix(p.base, ".conflist");
    Path(p.dir, p.base[..|p.base| - 4])
  }

  /** A base name has the extension exactly when it ends in it. */
  lemma {:induction false} ExtIsSuffix(base: string, ext: string)
    requires ext != "" && ext[0] == '.' && '.' !in ext[1..]
    ensures Ext(base) == ext <==> HasSuffix(base, ext)
    decreases |ext|
  {
    var n := |ext| - 1;
    if n == 0 {
      if base != "" {
        assert base[|base| - 1..] == [base[|base| - 1]];
      }
    } else {
      var short := ext[..n];
      assert short[1..] == ext[1..][..n - 1];
      assert ext == short + [ext[n]] && ext[n] == ext[1..][n - 1];
      if base == "" {
      } else {
        var init, last := base[..|base| - 1], base[|base| - 1];
        ExtIsSuffix(init, short);
        assert HasSuffix(base, ext) <==> HasSuffix(init, short) && last == ext[n] by {
          SuffixInit(base, ext);
        }
        if last != '.' && Ext(init) != "" {
          assert (Ext(init) + [last])[..|Ext(init)|] == Ext(init);
        }
      }
    }
  }

  lemma {:induction false} SuffixInit(base: string, ext: string)
    requires base != "" && ext != ""
    ensures HasSuffix(base, ext) <==>
            HasSuffix(base[..|base| - 1], ext[..|ext| - 1]) && base[|base| - 1] == ext[|ext| - 1]
  {}

  lemma {:induction false} SuffixAppend(a: string, b: string)
    ensures HasSuffix(a + b, b)
  {}

  lemma {:induction false} ExtOfAppended(base: string, ext: string)
    requires ext != "" && ext[0] == '.' && '.' !in ext[1..]
    ensures Ext(base + ext) == ext
  {
    SuffixAppend(base, ext);
    ExtIsSuffix(base + ext, ext);
  }

  lemma {:induction false} InstallIsExtension()
    ensures '.' !in ".install"[1..] && ".install" != ".conf" && ".install" != ".conflist"
  {}

  lemma {:induction false} TempIsNotCni(base: string)
    ensures Ext(base + ".install") == ".install" && ".install" != ".conf" && ".install" != ".conflist"
  {
    InstallIsExtension();
    ExtOfAppended(base, ".install");
  }

  /** `head.conf` and `head.conflist` name each other. */
  lemma {:induction false} ConfNames(head: string, dir: Dir)
    ensures Ext(head + ".conf") == ".conf" && HasSuffix(head + ".conf", ".conf")
    ensures Ext(head + ".conflist") == ".conflist"
    ensures Destination(Path(dir, head + ".conf")) == Path(dir, head + ".conflist")
    ensures ConfOf(Path(dir, head + ".conflist")) == Path(dir, head + ".conf")
  {
    SuffixAppend(head, ".conf");
    SuffixAppend(head, ".conflist");
    ExtIsSuffix(head + ".conf", ".conf");
    ExtIsSuffix(head + ".conflist", ".conflist");
    assert head + ".conf" + "list" == head + ".conflist";
    assert (head + ".conflist")[..|head| + 5] == head + ".conf";
  }

  lemma {:induction false} DropSuffix(base: string, ext: string)
    requires HasSuffix(base, ext)
    ensures base == base[..|base| - |ext|] + ext
  {}

  /** How the derived names are classified. */
  lemma {:induction false} PathFacts(p: Path)
    ensures IsCniFile(p) <==> !KindOf(p).NotCni?
    ensures KindOf(Temp(p)).NotCni?
    ensures Destination(p).dir == p.dir
    ensures KindOf(p).Conf? ==> KindOf(Destination(p)).Conflist? && ConfOf(Destination(p)) == p && Destination(p) != p
    ensures !KindOf(p).Conf? ==> Destination(p) == p
    ensures Temp(p) != p
  {
    TempIsNotCni(p.base);
    ExtIsSuffix(p.base, ".conf");
    if KindOf(p).Conf? {
      DropSuffix(p.base, ".conf");
      ConfNames(p.base[..|p.base| - 5], p.dir);
    }
  }

  /** The files with a configuration are those whose name ends in `.conf` or `.conflist`; `x.conf` is
      rewritten to `x.conflist`, which stays where it is. */
  lemma {:induction false} FilesByName(dir: Dir, base: string)
    ensures IsCniFile(Path(dir, base)) <==> HasSuffix(base, ".conf") || HasSuffix(base, ".conflist")
    ensures Temp(Path(dir, base)) == Path(dir, base + ".install") && !IsCniFile(Temp(Path(dir, base)))
    ensures Destination(Path(dir, base + ".conf")) == Path(dir, base + ".conflist")
    ensures Destination(Path(dir, base + ".conflist")) == Path(dir, base + ".conflist")
  {
    ExtIsSuffix(base, ".conf");
    ExtIsSuffix(base, ".conflist");
    ConfNames(base, dir);
    PathFacts(Path(dir, base));
    PathFacts(Temp(Path(dir, base)));
    ExtIsSuffix(base + ".conflist", ".conf");
  }

  lemma {:induction false} ConfOfFacts(q: Path)
    requires KindOf(q).Conflist?
    ensures KindOf(ConfOf(q)).Conf? && Destination(ConfOf(q)) == q && ConfOf(q) != q && ConfOf(q).dir == q.dir
  {
    ExtIsSuffix(q.base, ".conflist");
    DropSuffix(q.base, ".conflist");
    ConfNames(q.base[..|q.base| - 9], q.dir);
  }
}
