/** `makeMnemonic` under any number of `init` processes at once. The file system is one file
    that does not exist, or holds some text; a process makes it with an exclusive create, and
    the write that follows may reach the file in any number of pieces. */
module InitRace {
  import opened Basics
  import Decimal

  /** Where a process is in `makeMnemonic`. */
  datatype Pc =
    | Begin                                  // before the exclusive create
    | Created                                // made the file; the mnemonic is not made yet
    | Writing(mnemonic: string, done: nat)   // `done` characters of the line are in the file
    | Exists                                 // the create failed: the file of another process
    | Made(mnemonic: string)                 // returned with `made`
    | Kept(mnemonic: string, read: nat)      // returned what it found, after `read` characters
    | Failed                                 // returned an error

  datatype World = World(file: Option<string>, pcs: seq<Pc>)

  datatype Event =
    | Create(p: nat)
    | CannotCreate(p: nat)                    // an error other than "the file exists"
    | NewMnemonic(p: nat, mnemonic: Option<string>)
    | Write(p: nat, more: nat)                // `more` characters reach the file
    | Close(p: nat, ok: bool)
    | Abort(p: nat)                           // a write error, or a read error
    | Read(p: nat)

  function Start(n: nat): World {
    World(None, seq(n, _ => Begin))
  }

  function Line(mnemonic: string): string {
    mnemonic + "\n"
  }

  /** `NewMnemonic` gives words with single spaces between them: no space at the ends, and one line. */
  predicate IsMnemonic(m: string) {
    m != "" && !Decimal.IsSpace(m[0]) && !Decimal.IsSpace(m[|m| - 1]) && '\n' !in m
  }

  predicate Enabled(w: World, e: Event) {
    && e.p < |w.pcs|
    && match e
       case Create(p) => w.pcs[p].Begin?
       case CannotCreate(p) => w.pcs[p].Begin?
       case NewMnemonic(p, m) => w.pcs[p].Created? && (m.Some? ==> IsMnemonic(m.value))
       case Write(p, more) =>
         w.pcs[p].Writing? && w.file.Some? && w.pcs[p].done + more <= |Line(w.pcs[p].mnemonic)|
       case Close(p, _) => w.pcs[p].Writing? && w.pcs[p].done == |Line(w.pcs[p].mnemonic)|
       case Abort(p) => w.pcs[p].Writing? || w.pcs[p].Exists?
       case Read(p) => w.pcs[p].Exists? && w.file.Some?
  }

  /** What `keepMnemonic` makes of the text that it reads. */
  function Keep(text: string): Pc {
    var m := Decimal.TrimSpace(text);
    if m == "" then Failed else Kept(m, |text|)
  }

  function Next(w: World, e: Event): World
    requires Enabled(w, e)
  {
    match e
    case Create(p) =>
      if w.file.None? then World(Some(""), w.pcs[p := Created])
      else w.(pcs := w.pcs[p := Exists])
    case CannotCreate(p) => w.(pcs := w.pcs[p := Failed])
    case NewMnemonic(p, m) =>
      w.(pcs := w.pcs[p := if m.Some? then Writing(m.value, 0) else Failed])
    case Write(p, more) =>
      var Writing(m, done) := w.pcs[p];
      World(Some(w.file.value + Line(m)[done..done + more]), w.pcs[p := Writing(m, done + more)])
    case Close(p, ok) => w.(pcs := w.pcs[p := if ok then Made(w.pcs[p].mnemonic) else Failed])
    case Abort(p) => w.(pcs := w.pcs[p := Failed])
    case Read(p) => w.(pcs := w.pcs[p := Keep(w.file.value)])
  }

  predicate Possible(w: World, es: seq<Event>)
    decreases |es|
  {
    es == [] || (Enabled(w, es[0]) && Possible(Next(w, es[0]), es[1..]))
  }

  function Run(w: World, es: seq<Event>): World
    requires Possible(w, es)
    decreases |es|
  {
    if es == [] then w else Run(Next(w, es[0]), es[1..])
  }

  predicate Owns(pc: Pc) {
    pc.Created? || pc.Writing? || pc.Made?
  }

  /** What a process may hold when the one mnemonic of the run is `m`. */
  ghost predicate Fits(file: Option<string>, m: string, pc: Pc) {
    match pc
    case Begin => true
    case Created => file == Some("")
    case Writing(m', done) => m' == m && done <= |Line(m)| && file == Some(Line(m)[..done])
    case Exists => file.Some?
    case Made(m') => m' == m && file == Some(Line(m))
    case Kept(k, read) =>
      file.Some? && 0 < read <= |file.value| && read <= |Line(m)| && k == Decimal.TrimSpace(Line(m)[..read])
    case Failed => true
  }

  /** The file holds the beginning of the line of `m`, and everybody got a part of it. */
  ghost predicate Uses(w: World, m: string) {
    && IsMnemonic(m)
    && (w.file.Some? ==> w.file.value <= Line(m))
    && forall p :: 0 <= p < |w.pcs| ==> Fits(w.file, m, w.pcs[p])
  }

  /** At most one process owns the file, and while there is no file nobody got past the create. */
  ghost predicate OneOwner(w: World) {
    && (forall p, q :: 0 <= p < q < |w.pcs| && Owns(w.pcs[p]) ==> !Owns(w.pcs[q]))
    && (w.file.None? ==> forall p :: 0 <= p < |w.pcs| ==> w.pcs[p].Begin? || w.pcs[p].Failed?)
  }

  /** Before the first character there is no mnemonic yet, so any would fit. */
  ghost predicate Blank(w: World) {
    && (w.file == None || w.file == Some(""))
    && forall p :: 0 <= p < |w.pcs| ==> !w.pcs[p].Writing? && !w.pcs[p].Made? && !w.pcs[p].Kept?
  }

  /** The mnemonic of the run is `m`, and nobody makes another one. */
  ghost predicate Chosen(w: World, m: string) {
    && OneOwner(w) && Uses(w, m) && w.file.Some?
    && forall p :: 0 <= p < |w.pcs| ==> !w.pcs[p].Created?
  }

  ghost predicate Inv(w: World) {
    OneOwner(w) && (Blank(w) || exists m :: Chosen(w, m))
  }

  lemma OwnerKept(w: World, e: Event)
    requires Enabled(w, e) && OneOwner(w)
    ensures OneOwner(Next(w, e))
  {
  }

  lemma BlankKept(w: World, e: Event)
    requires Enabled(w, e) && OneOwner(w) && Blank(w)
    ensures if e.NewMnemonic? && e.mnemonic.Some? then Chosen(Next(w, e), e.mnemonic.value) else Blank(Next(w, e))
  {
    OwnerKept(w, e);
    if e.Read? {
      assert Decimal.TrimSpace("") == "";
    }
    if e.NewMnemonic? && e.mnemonic.Some? {
      var m := e.mnemonic.value;
      assert Line(m)[..0] == "";
      assert w.pcs[e.p].Created? && w.file == Some("");
    }
  }

  lemma WriteFits(w: World, m: string, p: nat, more: nat)
    requires Enabled(w, Write(p, more)) && OneOwner(w) && Uses(w, m)
    ensures Uses(Next(w, Write(p, more)), m)
  {
    assert Fits(w.file, m, w.pcs[p]);
    var done := w.pcs[p].done;
    assert Line(m)[..done] + Line(m)[done..done + more] == Line(m)[..done + more];
    var y := Next(w, Write(p, more));
    forall q | 0 <= q < |y.pcs|
      ensures Fits(y.file, m, y.pcs[q])
    {
      assert Fits(w.file, m, w.pcs[q]);
    }
  }

  lemma ReadFits(w: World, m: string, p: nat)
    requires Enabled(w, Read(p)) && Uses(w, m)
    ensures Uses(Next(w, Read(p)), m)
  {
    var text := w.file.value;
    assert text == Line(m)[..|text|];
    if text == "" {
      assert Decimal.TrimSpace("") == "";
    }
    var y := Next(w, Read(p));
    forall q | 0 <= q < |y.pcs|
      ensures Fits(y.file, m, y.pcs[q])
    {
      assert Fits(w.file, m, w.pcs[q]);
    }
  }

  lemma OtherFits(w: World, e: Event, m: string)
    requires Enabled(w, e) && OneOwner(w) && Uses(w, m)
    requires !e.Write? && !e.Read? && !e.NewMnemonic? && (e.Create? ==> w.file.Some?)
    ensures Uses(Next(w, e), m)
  {
    var y := Next(w, e);
    assert Line(m)[..|Line(m)|] == Line(m);
    forall q | 0 <= q < |y.pcs|
      ensures Fits(y.file, m, y.pcs[q])
    {
      assert Fits(w.file, m, w.pcs[q]);
    }
  }

  lemma ChosenKept(w: World, e: Event, m: string)
    requires Enabled(w, e) && Chosen(w, m)
    ensures Chosen(Next(w, e), m) && !e.NewMnemonic?
  {
    OwnerKept(w, e);
    match e
    case Write(p, more) => WriteFits(w, m, p, more);
    case Read(p) => ReadFits(w, m, p);
    case _ => OtherFits(w, e, m);
  }

  lemma StepKeeps(w: World, e: Event)
    requires Enabled(w, e) && Inv(w)
    ensures Inv(Next(w, e))
  {
    OwnerKept(w, e);
    if Blank(w) {
      BlankKept(w, e);
    } else {
      var m :| Chosen(w, m);
      ChosenKept(w, e, m);
    }
  }

  lemma {:induction false} RunKeeps(w: World, es: seq<Event>)
    requires Possible(w, es) && Inv(w)
    ensures Inv(Run(w, es))
    decreases |es|
  {
    if es != [] {
      StepKeeps(w, es[0]);
      RunKeeps(Next(w, es[0]), es[1..]);
    }
  }

  /** Somebody made the mnemonic `m` in these steps. */
  predicate Generated(es: seq<Event>, m: string) {
    exists i :: 0 <= i < |es| && es[i].NewMnemonic? && es[i].mnemonic == Some(m)
  }

  lemma GeneratedCons(es: seq<Event>, m: string)
    requires es != []
    ensures Generated(es, m) <==> (es[0].NewMnemonic? && es[0].mnemonic == Some(m)) || Generated(es[1..], m)
  {
    if i :| 0 < i < |es| && es[i].NewMnemonic? && es[i].mnemonic == Some(m) {
      assert es[1..][i - 1] == es[i];
    }
    if i :| 0 <= i < |es[1..]| && es[1..][i].NewMnemonic? && es[1..][i].mnemonic == Some(m) {
      assert es[i + 1] == es[1..][i];
    }
  }

  lemma {:induction false} ChosenRun(w: World, es: seq<Event>, m: string)
    requires Possible(w, es) && Chosen(w, m)
    ensures Chosen(Run(w, es), m) && forall k :: !Generated(es, k)
    decreases |es|
  {
    if es != [] {
      ChosenKept(w, es[0], m);
      ChosenRun(Next(w, es[0]), es[1..], m);
      forall k
        ensures !Generated(es, k)
      {
        GeneratedCons(es, k);
      }
    }
  }

  /** Either nobody made a mnemonic and nobody has one, or one was made, and it is used. */
  lemma {:induction false} RunChooses(w: World, es: seq<Event>) returns (m: Option<string>)
    requires Possible(w, es) && OneOwner(w) && Blank(w)
    ensures m.None? ==> Blank(Run(w, es))
    ensures m.Some? ==> Chosen(Run(w, es), m.value)
    ensures forall k :: Generated(es, k) <==> m == Some(k)
    decreases |es|
  {
    if es == [] {
      return None;
    }
    OwnerKept(w, es[0]);
    BlankKept(w, es[0]);
    if es[0].NewMnemonic? && es[0].mnemonic.Some? {
      m := es[0].mnemonic;
      ChosenRun(Next(w, es[0]), es[1..], m.value);
    } else {
      m := RunChooses(Next(w, es[0]), es[1..]);
    }
    forall k
      ensures Generated(es, k) <==> m == Some(k)
    {
      GeneratedCons(es, k);
    }
  }

  /** A process that finds the file keeps what is in it, without the white space around it, and
      fails exactly when there is nothing else. The file stays as it is. */
  lemma ReadKeeps(w: World, p: nat)
    requires Enabled(w, Read(p))
    ensures var y := Next(w, Read(p)); var text := w.file.value;
      && y.file == w.file
      && (Decimal.Blank(text) ==> y.pcs[p] == Failed)
      && forall l, m, r ::
           Decimal.Blank(l) && Decimal.Blank(r) && text == l + m + r
           && m != "" && !Decimal.IsSpace(m[0]) && !Decimal.IsSpace(m[|m| - 1])
           ==> y.pcs[p].Kept? && y.pcs[p].mnemonic == m
  {
    var text := w.file.value;
    if Decimal.Blank(text) {
      Decimal.TrimLeftAllBlank(text);
    }
    forall l, m, r |
      Decimal.Blank(l) && Decimal.Blank(r) && text == l + m + r
      && m != "" && !Decimal.IsSpace(m[0]) && !Decimal.IsSpace(m[|m| - 1])
      ensures Decimal.TrimSpace(text) == m
    {
      Decimal.TrimIsExact(l, m, r);
    }
  }

  /** A process without a rival makes the file, with its own mnemonic on one line. */
  lemma AloneMakesIt(m: string) returns (es: seq<Event>)
    requires IsMnemonic(m)
    ensures Possible(Start(1), es) && Run(Start(1), es) == World(Some(m + "\n"), [Made(m)])
  {
    var w1 := Next(Start(1), Create(0));
    var w2 := Next(w1, NewMnemonic(0, Some(m)));
    var w3 := Next(w2, Write(0, |m| + 1));
    assert Line(m)[0..|m| + 1] == Line(m) && "" + Line(m) == Line(m);
    var w4 := Next(w3, Close(0, true));
    assert w4.pcs == [Made(m)];
    RunCons(w3, Close(0, true), []);
    RunCons(w2, Write(0, |m| + 1), [Close(0, true)]);
    RunCons(w1, NewMnemonic(0, Some(m)), [Write(0, |m| + 1)] + [Close(0, true)]);
    RunCons(Start(1), Create(0), [NewMnemonic(0, Some(m))] + ([Write(0, |m| + 1)] + [Close(0, true)]));
    es := [Create(0)] + ([NewMnemonic(0, Some(m))] + ([Write(0, |m| + 1)] + [Close(0, true)]));
  }

  /** What `keepMnemonic` reads is the mnemonic exactly when it reads all of its characters. */
  lemma ReadsItAll(m: string, read: nat)
    requires IsMnemonic(m) && read <= |Line(m)|
    ensures Decimal.TrimSpace(Line(m)[..read]) == m <==> read >= |m|
  {
    Decimal.TrimSpaceLine(m);
    if read < |m| {
      Decimal.TrimSpaceShorter(Line(m)[..read]);
    } else if read == |m| {
      assert Line(m)[..read] == m;
    } else {
      assert Line(m)[..read] == Line(m);
    }
  }

  /** For any number of processes in any interleaving: at most one reports that it made the
      file, and at most one mnemonic is generated. If anybody succeeds there is one, the file holds
      the beginning of its line, the maker returns it, and a process that kept the file returns it
      exactly when the read came after its last character. Otherwise that process returns a
      beginning of it. */
  lemma OneWallet(n: nat, es: seq<Event>)
    requires Possible(Start(n), es)
    ensures var w := Run(Start(n), es);
      && |w.pcs| == n
      && (forall p, q :: 0 <= p < q < n && w.pcs[p].Made? ==> !w.pcs[q].Made?)
      && (forall k, m :: Generated(es, k) && Generated(es, m) ==> k == m)
      && (forall p :: 0 <= p < n && (w.pcs[p].Made? || w.pcs[p].Kept?) ==> exists m :: Generated(es, m))
      && forall m :: Generated(es, m) ==>
           && IsMnemonic(m) && w.file.Some? && w.file.value <= Line(m)
           && forall p :: 0 <= p < n ==> Agrees(m, w.pcs[p])
  {
    RunKeepsLength(Start(n), es);
    var w := Run(Start(n), es);
    var m := RunChooses(Start(n), es);
    RunKeeps(Start(n), es);
    if m.Some? {
      assert Generated(es, m.value);
      forall q | 0 <= q < n
        ensures Agrees(m.value, w.pcs[q])
      {
        assert Fits(w.file, m.value, w.pcs[q]);
        if w.pcs[q].Kept? {
          ReadsItAll(m.value, w.pcs[q].read);
        }
      }
    }
  }

  /** What a process that succeeded returns, against the one mnemonic of the run. */
  ghost predicate Agrees(m: string, pc: Pc) {
    match pc
    case Made(m') => m' == m
    case Kept(k, read) =>
      read <= |Line(m)| && k == Decimal.TrimSpace(Line(m)[..read]) && (k == m <==> read >= |m|)
    case _ => true
  }

  lemma {:induction false} RunKeepsLength(w: World, es: seq<Event>)
    requires Possible(w, es)
    ensures |Run(w, es).pcs| == |w.pcs|
    decreases |es|
  {
    if es != [] {
      RunKeepsLength(Next(w, es[0]), es[1..]);
    }
  }

  lemma RunCons(w: World, e: Event, es: seq<Event>)
    requires Enabled(w, e) && Possible(Next(w, e), es)
    ensures Possible(w, [e] + es) && Run(w, [e] + es) == Run(Next(w, e), es)
  {
    assert ([e] + es)[1..] == es;
  }

  /** The maker writes the rest of the line and closes the file. */
  lemma Finish(w: World, m: string) returns (es: seq<Event>)
    requires |w.pcs| == 2 && w.pcs[0] == Writing(m, 1) && w.file.Some?
    ensures Possible(w, es) && Run(w, es).pcs == [Made(m), w.pcs[1]]
  {
    var more := |Line(m)| - 1;
    var w1 := Next(w, Write(0, more));
    var w2 := Next(w1, Close(0, true));
    RunCons(w1, Close(0, true), []);
    RunCons(w, Write(0, more), [Close(0, true)]);
    assert w2.pcs == [Made(m), w.pcs[1]];
    es := [Write(0, more)] + [Close(0, true)];
  }

  /** The other process finds the file, and reads it while it holds one character. */
  lemma ReadEarly(w: World, m: string) returns (es: seq<Event>)
    requires IsMnemonic(m) && |w.pcs| == 2 && w.pcs[0] == Writing(m, 1) && w.pcs[1] == Begin
    requires w.file == Some(m[..1])
    ensures Possible(w, es) && Run(w, es) == World(w.file, [w.pcs[0], Kept(m[..1], 1)])
  {
    Decimal.TrimSpaceLine(m[..1]);
    var w1 := Next(w, Create(1));
    var w2 := Next(w1, Read(1));
    RunCons(w1, Read(1), []);
    RunCons(w, Create(1), [Read(1)]);
    assert w2.pcs == [w.pcs[0], Kept(m[..1], 1)];
    es := [Create(1)] + [Read(1)];
  }

  /** The runs do differ when a read falls between two pieces of the write: the maker has `m`,
      and the other process keeps the first character of it. */
  lemma ReadInTheMiddle(m: string) returns (es: seq<Event>)
    requires IsMnemonic(m)
    ensures Possible(Start(2), es)
    ensures Run(Start(2), es).pcs == [Made(m), Kept(m[..1], 1)]
  {
    var w0 := Start(2);
    var w1 := Next(w0, Create(0));
    var w2 := Next(w1, NewMnemonic(0, Some(m)));
    var w3 := Next(w2, Write(0, 1));
    assert w3.file.value == m[..1];
    var early := ReadEarly(w3, m);
    var finish := Finish(Run(w3, early), m);
    RunConcat(w3, early, finish);
    RunCons(w2, Write(0, 1), early + finish);
    RunCons(w1, NewMnemonic(0, Some(m)), [Write(0, 1)] + (early + finish));
    RunCons(w0, Create(0), [NewMnemonic(0, Some(m))] + ([Write(0, 1)] + (early + finish)));
    es := [Create(0)] + ([NewMnemonic(0, Some(m))] + ([Write(0, 1)] + (early + finish)));
  }

  lemma {:induction false} RunConcat(w: World, a: seq<Event>, b: seq<Event>)
    requires Possible(w, a) && Possible(Run(w, a), b)
    ensures Possible(w, a + b) && Run(w, a + b) == Run(Run(w, a), b)
    decreases |a|
  {
    if a == [] {
      assert a + b == b;
    } else {
      RunConcat(Next(w, a[0]), a[1..], b);
      assert (a + b)[1..] == a[1..] + b;
    }
  }

  /** A write that reaches the file in one piece. */
  predicate Atomic(w: World, es: seq<Event>)
    decreases |es|
  {
    es == [] ||
    (&& Enabled(w, es[0])
     && (es[0].Write? ==> w.pcs[es[0].p].done == 0 && es[0].more == |Line(w.pcs[es[0].p].mnemonic)|)
     && Atomic(Next(w, es[0]), es[1..]))
  }

  /** The file is absent, empty or whole, and whoever kept it read the whole line. */
  ghost predicate Whole(w: World) {
    && (w.file.Some? && w.file.value != "" ==>
          exists m :: IsMnemonic(m) && w.file.value == Line(m))
    && forall p :: 0 <= p < |w.pcs| && w.pcs[p].Kept? ==>
         w.file.Some? && w.file.value == Line(w.pcs[p].mnemonic)
  }

  lemma WholeKept(w: World, e: Event)
    requires Enabled(w, e) && Inv(w) && Whole(w)
    requires e.Write? ==> w.pcs[e.p].done == 0 && e.more == |Line(w.pcs[e.p].mnemonic)|
    ensures Whole(Next(w, e))
  {
    match e
    case Write(p, more) =>
      var m :| Chosen(w, m);
      assert Fits(w.file, m, w.pcs[p]);
      assert Line(m)[0..0 + more] == Line(m) && Line(m)[..0] == "";
      assert "" + Line(m) == Line(m);
    case Read(p) =>
      if w.file.value == "" {
        assert Decimal.TrimSpace("") == "";
      } else {
        var m :| IsMnemonic(m) && w.file.value == Line(m);
        Decimal.TrimSpaceLine(m);
      }
    case _ =>
  }

  lemma {:induction false} WholeRun(w: World, es: seq<Event>)
    requires Possible(w, es) && Atomic(w, es) && Inv(w) && Whole(w)
    ensures Whole(Run(w, es))
    decreases |es|
  {
    if es != [] {
      StepKeeps(w, es[0]);
      WholeKept(w, es[0]);
      WholeRun(Next(w, es[0]), es[1..]);
    }
  }

  /** If the write is atomic, every process that succeeds returns the one mnemonic that was
      generated, and the file holds its line. */
  lemma OneWalletWhenAtomic(n: nat, es: seq<Event>)
    requires Possible(Start(n), es) && Atomic(Start(n), es)
    ensures var w := Run(Start(n), es);
      forall p :: 0 <= p < |w.pcs| && (w.pcs[p].Made? || w.pcs[p].Kept?) ==>
        && (forall m :: Generated(es, m) <==> m == w.pcs[p].mnemonic)
        && w.file == Some(Line(w.pcs[p].mnemonic))
  {
    RunKeeps(Start(n), es);
    WholeRun(Start(n), es);
    var w := Run(Start(n), es);
    var m := RunChooses(Start(n), es);
    forall p | 0 <= p < |w.pcs| && (w.pcs[p].Made? || w.pcs[p].Kept?)
      ensures m == Some(w.pcs[p].mnemonic) && w.file == Some(Line(w.pcs[p].mnemonic))
    {
      HoldsTheLine(w, p);
      LinesAgree(w.pcs[p].mnemonic, m.value);
    }
  }

  lemma HoldsTheLine(w: World, p: nat)
    requires Inv(w) && Whole(w) && p < |w.pcs| && (w.pcs[p].Made? || w.pcs[p].Kept?)
    ensures w.file == Some(Line(w.pcs[p].mnemonic))
  {
    if w.pcs[p].Made? {
      var m :| Chosen(w, m);
      assert Fits(w.file, m, w.pcs[p]);
    }
  }

  lemma LineIsInjective(a: string, b: string)
    requires Line(a) == Line(b)
    ensures a == b
  {
    assert Line(a)[..|a|] == a && Line(b)[..|b|] == b;
  }

  /** No line is the beginning of another one. */
  lemma LinesAgree(a: string, b: string)
    requires IsMnemonic(b) && Line(a) <= Line(b)
    ensures a == b
  {
    assert Line(b)[|a|] == Line(a)[|a|] == '\n';
    forall i | 0 <= i < |b|
      ensures Line(b)[i] != '\n'
    {
      assert b[i] in b;
    }
    assert |a| == |b|;
    LineIsInjective(a, b);
  }

  /** The content of the file never shrinks and is never replaced. */
  lemma {:induction false} FileOnlyGrows(w: World, es: seq<Event>)
    requires Possible(w, es) && w.file.Some?
    ensures Run(w, es).file.Some? && w.file.value <= Run(w, es).file.value
    decreases |es|
  {
    if es != [] {
      FileOnlyGrows(Next(w, es[0]), es[1..]);
    }
  }

  lemma SameText(a: string, b: string)
    requires a <= b <= a
    ensures a == b
  {
    assert a == b[..|a|];
  }

  /** With an atomic write the content of the file changes at most once, from nothing to the line
      of the mnemonic that was generated: whatever it holds at a moment of a run is nothing, or
      that line, and then it holds the same at every later moment. */
  lemma ContentChangesOnce(n: nat, before: seq<Event>, after: seq<Event>)
    requires Possible(Start(n), before) && Atomic(Start(n), before)
    requires Possible(Run(Start(n), before), after)
    ensures var w := Run(Start(n), before); var z := Run(w, after);
      w.file.Some? && w.file.value != "" ==>
        z.file == w.file && exists m :: Generated(before, m) && w.file.value == Line(m)
  {
    RunKeeps(Start(n), before);
    WholeRun(Start(n), before);
    var w := Run(Start(n), before);
    var m := RunChooses(Start(n), before);
    if w.file.Some? && w.file.value != "" {
      var k :| IsMnemonic(k) && w.file.value == Line(k);
      assert Generated(before, m.value);
      ChosenRun(w, after, m.value);
      FileOnlyGrows(w, after);
      LinesAgree(k, m.value);
      SameText(w.file.value, Run(w, after).file.value);
    }
  }
}
