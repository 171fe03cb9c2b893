/** Runs of the code in which breaking one rule misleads a client. */
module MaxRegWitness {
  import opened Registers
  import opened Sets
  import opened MaxReg
  import opened MaxRegProtocol
  import opened MaxRegRising
  import opened MaxRegTruth
  import opened MaxRegTheorems
  import opened MaxRegExact
  import opened MaxRegReplay

  const Pair := Config(2, 1, 2)
  const Trio := Config(3, 1, 2)
  const Shared := Config(3, 2, 2)
  function PairPlaces(): seq<seq<bool>> { [[false, false]] }
  function TrioPlaces(): seq<seq<bool>> { [[true, false, false]] }
  function SharedPlaces(): seq<seq<bool>> { [[false, false, false], [false, false, false]] }

  // BaseN is the state after N events: two servers, both needed, and a write of 2 that finishes. BaseNx is the
  // client that moved, y and z are that client between the servers it polls.

  ghost function Base0(): State { Init(Pair, PairPlaces()) }
  lemma {:induction false} Base0Is() ensures Reachable(Pair, PairPlaces(), Base0()) { Starts(Pair, PairPlaces()); }
  ghost function Base1x(): Client {
    Client([Future(Done, Some(WriteAll), 0, None, 0), Future(Done, Some(WriteAll), 0, None, 0)],
           [None, None], [2, 0, 0], 0, 0, 0, Writing, [false, false], 2)
  }
  ghost function Base1(): State { State([[0], [0]], [Base1x()], [2], [[[0], [0]]]) }
  lemma {:induction false} Base1Is() ensures Reachable(Pair, PairPlaces(), Base1()) {
    hide Reachable, Leads; Base0Is(); Reaches(Pair, PairPlaces(), Base0(), Start(0, false, KWrite(2)), Base1());
  }
  ghost function Base2x(): Client {
    Client([Future(WriteAll, None, 0, None, 0), Future(WriteAll, None, 0, None, 0)],
           [Cas(0, 2, 1, None), Cas(0, 2, 1, None)], [2, 0, 0], 0, 0, 0, Writing, [false, false], 2)
  }
  ghost function Base2(): State { State([[0], [0]], [Base2x()], [2], [[[0], [0]]]) }
  ghost function Base2y(): Client {
    Client([Future(WriteAll, None, 0, None, 0), Future(Done, Some(WriteAll), 0, None, 0)],
           [Cas(0, 2, 1, None), None], [2, 0, 0], 0, 0, 0, Writing, [false, false], 2)
  }
  lemma {:induction false} Base2Poll0() ensures Polls(Base1().clients[0], 0, 0, 1, Base2y(), false, false) {}
  lemma {:induction false} Base2Poll1() ensures Polls(Base2y(), 1, 0, 1, Base2x(), false, false) {}
  lemma {:induction false} Base2Ends() ensures Forwarded(Base1().clients[0], {}, 2, 0, 1) == Base2x() {
    Base2Poll0(); Base2Poll1();
    TwoPolled(Base1().clients[0], {}, 0, 1, 0, 1, Base2y(), Base2x(), [false, false], [false, false]);
  }
  lemma {:induction false} Base2Is() ensures Reachable(Pair, PairPlaces(), Base2()) {
    hide Reachable, Leads;
    Base2Ends();
    hide Polls, Forwarded, Stepped, Noted, Ready, Request;
    Base1Is(); Reaches(Pair, PairPlaces(), Base1(), Forward(0, {}), Base2());
  }
  ghost function Base3(): State { With(Base2(), [[2], [0]], 0, [Cas(0, 2, 1, Some(0)), Cas(0, 2, 1, None)]) }
  lemma {:induction false} Base3Is() ensures Reachable(Pair, PairPlaces(), Base3()) {
    hide Reachable, Leads; Base2Is(); Reaches(Pair, PairPlaces(), Base2(), Swap(0, 0), Base3());
  }
  ghost function Base4(): State { With(Base3(), [[2], [2]], 0, [Cas(0, 2, 1, Some(0)), Cas(0, 2, 1, Some(0))]) }
  lemma {:induction false} Base4Is() ensures Reachable(Pair, PairPlaces(), Base4()) {
    hide Reachable, Leads; Base3Is(); Reaches(Pair, PairPlaces(), Base3(), Swap(0, 1), Base4());
  }
  ghost function Base5x(): Client {
    Client([Future(Done, Some(Done), 2, Some(2), 0), Future(Done, Some(Done), 2, Some(2), 0)],
           [None, None], [2, 2, 0], 0, 0, 2, Finished, [false, false], 2)
  }
  ghost function Base5(): State { State([[2], [2]], [Base5x()], [2], [[[0], [0]]]) }
  ghost function Base5y(): Client {
    Client([Future(Done, None, 2, Some(2), 0), Future(WriteAll, None, 0, None, 0)],
           [None, Cas(0, 2, 1, Some(0))], [2, 2, 0], 0, 0, 2, Writing, [false, false], 2)
  }
  lemma {:induction false} Base5Poll0() ensures Polls(Base4().clients[0], 0, 0, 1, Base5y(), true, true) {}
  ghost function Base5z(): Client { Base5x().(phase := Writing, futures := [Future(Done, None, 2, Some(2), 0),
      Future(Done, None, 2, Some(2), 0)]) }
  lemma {:induction false} Base5Poll1() ensures Polls(Base5y(), 1, 0, 1, Base5z(), true, true) {}
  lemma {:induction false} Base5Ends() ensures Forwarded(Base4().clients[0], {}, 2, 0, 1) == Base5x() {
    Base5Poll0(); Base5Poll1();
    TwoDone(Base4().clients[0], {}, 0, 1, 0, 1, Base5y(), Base5z(), Base5x());
  }
  lemma {:induction false} Base5Is() ensures Reachable(Pair, PairPlaces(), Base5()) {
    hide Reachable, Leads;
    Base5Ends();
    hide Polls, Forwarded, Stepped, Noted, Ready, Request;
    Base4Is(); Reaches(Pair, PairPlaces(), Base4(), Forward(0, {}), Base5());
  }

  // A write of 3 is reported at once, for 2 counts as 3, with its swaps still out.

  ghost function First6x(): Client {
    Client([Future(Done, Some(WriteTsAndIn), 2, Some(2), 0), Future(Done, Some(WriteTsAndIn), 2, Some(2), 0)],
           [None, None], [3, 2, 0], 0, 0, 2, Writing, [false, false], 3)
  }
  ghost function First6(): State { State([[2], [2]], [First6x()], [3], [[[2], [2]]]) }
  lemma {:induction false} First6Is() ensures Reachable(Pair, PairPlaces(), First6()) {
    hide Reachable, Leads; Base5Is(); Reaches(Pair, PairPlaces(), Base5(), Start(0, false, KWriteTsAndIn(3)), First6());
  }
  ghost function First7x(): Client {
    Client([Future(WriteTsAndIn, None, 2, Some(2), 0), Future(WriteTsAndIn, None, 2, Some(2), 0)],
           [Cas(2, 3, 1, None), Cas(2, 3, 1, None)], [3, 2, 0], 0, 0, 2, Linearized, [false, false], 3)
  }
  ghost function First7(): State { State([[2], [2]], [First7x()], [3], [[[2], [2]]]) }
  ghost function First7y(): Client {
    Client([Future(WriteTsAndIn, None, 2, Some(2), 0), Future(Done, Some(WriteTsAndIn), 2, Some(2), 0)],
           [Cas(2, 3, 1, None), None], [3, 2, 0], 0, 0, 2, Writing, [false, false], 3)
  }
  lemma {:induction false} First7Poll0() ensures Polls(First6().clients[0], 0, 0, 1, First7y(), true, false) {}
  lemma {:induction false} First7Poll1() ensures Polls(First7y(), 1, 0, 1, First7x().(phase := Writing), true, false) {}
  lemma {:induction false} First7Ends() ensures Forwarded(First6().clients[0], {}, 2, 0, 1) == First7x() {
    First7Poll0(); First7Poll1();
    TwoPolled(First6().clients[0], {}, 0, 1, 0, 1, First7y(), First7x().(phase := Writing), [true, true], [false, false]);
  }
  lemma {:induction false} First7Is() ensures Reachable(Pair, PairPlaces(), First7()) {
    hide Reachable, Leads;
    First7Ends();
    hide Polls, Forwarded, Stepped, Noted, Ready, Request;
    First6Is(); Reaches(Pair, PairPlaces(), First6(), Forward(0, {}), First7());
  }

  // The maximum is replicated with its verified bit, reported at once, and its swaps are out; then 8 is written.

  ghost function Second6x(): Client {
    Client([Future(Done, Some(WriteAll), 2, Some(2), 0), Future(Done, Some(WriteAll), 2, Some(2), 0)],
           [None, None], [2, 3, 0], 1, 0, 2, Writing, [false, false], 3)
  }
  ghost function Second6(): State { State([[2], [2]], [Second6x()], [3], [[[2], [2]]]) }
  lemma {:induction false} Second6Is() ensures Reachable(Pair, PairPlaces(), Second6()) {
    hide Reachable, Leads; Base5Is(); Reaches(Pair, PairPlaces(), Base5(), Start(0, false, KReplicate(true)), Second6());
  }
  ghost function Second7x(): Client {
    Client([Future(WriteTs, None, 2, Some(2), 1), Future(WriteTs, None, 2, Some(2), 1)],
           [Cas(2, 3, 1, None), Cas(2, 3, 1, None)], [2, 3, 0], 1, 0, 2, Linearized, [false, false], 3)
  }
  ghost function Second7(): State { State([[2], [2]], [Second7x()], [3], [[[2], [2]]]) }
  ghost function Second7y(): Client {
    Client([Future(WriteTs, None, 2, Some(2), 1), Future(Done, Some(WriteAll), 2, Some(2), 0)],
           [Cas(2, 3, 1, None), None], [2, 3, 0], 1, 0, 2, Writing, [false, false], 3)
  }
  lemma {:induction false} Second7Poll0() ensures Polls(Second6().clients[0], 0, 0, 1, Second7y(), true, false) {}
  lemma {:induction false} Second7Poll1() ensures Polls(Second7y(), 1, 0, 1, Second7x().(phase := Writing), true, false) {}
  lemma {:induction false} Second7Ends() ensures Forwarded(Second6().clients[0], {}, 2, 0, 1) == Second7x() {
    Second7Poll0(); Second7Poll1();
    TwoPolled(Second6().clients[0], {}, 0, 1, 0, 1, Second7y(), Second7x().(phase := Writing), [true, true], [false, false]);
  }
  lemma {:induction false} Second7Is() ensures Reachable(Pair, PairPlaces(), Second7()) {
    hide Reachable, Leads;
    Second7Ends();
    hide Polls, Forwarded, Stepped, Noted, Ready, Request;
    Second6Is(); Reaches(Pair, PairPlaces(), Second6(), Forward(0, {}), Second7());
  }
  ghost function Second8x(): Client {
    Client([Future(WriteTs, Some(WriteAll), 2, Some(2), 1), Future(WriteTs, Some(WriteAll), 2, Some(2), 1)],
           [Cas(2, 3, 1, None), Cas(2, 3, 1, None)], [8, 3, 0], 0, 0, 2, Writing, [false, false], 8)
  }
  ghost function Second8(): State { State([[2], [2]], [Second8x()], [8], [[[2], [2]]]) }
  lemma {:induction false} Second8Goes() ensures Goes(Pair, Second7(), Start(0, false, KWrite(8)), Second8()) {}
  ghost function Second9(): State { With(Second8(), [[3], [2]], 0, [Cas(2, 3, 1, Some(2)), Cas(2, 3, 1, None)]) }
  lemma {:induction false} Second9Is() ensures Leads(Pair, Second8(), Second9()) {
    hide Reachable, Leads; LeadsHere(Pair, Second8()); LeadsFurther(Pair, Second8(), Second8(), Swap(0, 0), Second9());
  }
  ghost function Second10x(): Client {
    Client([Future(WriteAll, None, 3, Some(3), 0), Future(WriteTs, Some(WriteAll), 2, Some(2), 1)],
           [Cas(3, 8, 1, None), Cas(2, 3, 1, None)], [8, 3, 0], 0, 0, 3, Writing, [false, false], 8)
  }
  ghost function Second10(): State { State([[3], [2]], [Second10x()], [8], [[[2], [2]]]) }
  lemma {:induction false} Second10Poll0() ensures Polls(Second9().clients[0], 0, 0, 1, Second10x(), false, false) {}
  lemma {:induction false} Second10Is() ensures Leads(Pair, Second8(), Second10()) {
    hide Reachable, Leads;
    Second10Poll0(); OnePolled(Second9().clients[0], {1}, 0, 0, 1, Second10x(), false, false);
    hide Polls, Forwarded, Stepped, Noted, Ready, Request;
    Second9Is(); LeadsFurther(Pair, Second8(), Second9(), Forward(0, {1}), Second10());
  }
  ghost function Second11(): State { With(Second10(), [[8], [2]], 0, [Cas(3, 8, 1, Some(3)), Cas(2, 3, 1, None)]) }
  lemma {:induction false} Second11Is() ensures Leads(Pair, Second8(), Second11()) {
    hide Reachable, Leads; Second10Is(); LeadsFurther(Pair, Second8(), Second10(), Swap(0, 0), Second11());
  }
  ghost function Second12x(): Client {
    Client([Future(Done, None, 8, Some(8), 0), Future(WriteTs, Some(WriteAll), 2, Some(2), 1)],
           [None, Cas(2, 3, 1, None)], [8, 8, 0], 0, 0, 8, Writing, [false, false], 8)
  }
  ghost function Second12(): State { State([[8], [2]], [Second12x()], [8], [[[2], [2]]]) }
  lemma {:induction false} Second12Poll0() ensures Polls(Second11().clients[0], 0, 0, 1, Second12x(), true, true) {}
  lemma {:induction false} Second12Is() ensures Leads(Pair, Second8(), Second12()) {
    hide Reachable, Leads;
    Second12Poll0(); OnePolled(Second11().clients[0], {1}, 0, 0, 1, Second12x(), true, true);
    hide Polls, Forwarded, Stepped, Noted, Ready, Request;
    Second11Is(); LeadsFurther(Pair, Second8(), Second11(), Forward(0, {1}), Second12());
  }
  ghost function Second13(): State { With(Second12(), [[8], [3]], 0, [None, Cas(2, 3, 1, Some(2))]) }
  lemma {:induction false} Second13Is() ensures Leads(Pair, Second8(), Second13()) {
    hide Reachable, Leads; Second12Is(); LeadsFurther(Pair, Second8(), Second12(), Swap(0, 1), Second13());
  }
  ghost function Second14x(): Client {
    Client([Future(Done, Some(Done), 8, Some(8), 0), Future(Done, Some(Done), 8, Some(8), 1)],
           [None, None], [8, 8, 0], 0, 0, 8, Finished, [false, false], 8)
  }
  ghost function Second14y(): Client {
    Client([Future(Done, None, 8, Some(8), 0), Future(WriteTs, Some(WriteAll), 2, Some(2), 1)],
           [None, Cas(2, 3, 1, Some(2))], [8, 8, 0], 0, 0, 8, Writing, [false, false], 8)
  }
  lemma {:induction false} Second14Poll0() ensures Polls(Second13().clients[0], 0, 0, 1, Second14y(), true, true) {}
  ghost function Second14z(): Client { Second14x().(phase := Writing, futures := [Future(Done, None, 8, Some(8), 0),
      Future(Done, None, 8, Some(8), 1)]) }
  lemma {:induction false} Second14Poll1() ensures Polls(Second14y(), 1, 0, 1, Second14z(), true, true) {}
  lemma {:induction false} Second14Ends() ensures Idle(Forwarded(Second13().clients[0], {}, 2, 0, 1)) {
    Second14Poll0(); Second14Poll1();
    TwoDone(Second13().clients[0], {}, 0, 1, 0, 1, Second14y(), Second14z(), Second14x());
  }

  // A timestamp below what stands there is written without looking.

  ghost function Third6x(): Client {
    Client([Future(Done, Some(WriteTsAndIn), 2, Some(2), 0), Future(Done, Some(WriteTsAndIn), 2, Some(2), 0)],
           [None, None], [1, 2, 0], 0, 0, 2, Writing, [false, false], 2)
  }
  ghost function Third6(): State { State([[2], [2]], [Third6x()], [1], [[[2], [2]]]) }
  lemma {:induction false} Third6Goes() ensures Goes(Pair, Base5(), Start(0, false, KWriteTsAndIn(1)), Third6()) {}
  ghost function Third7x(): Client {
    Client([Future(WriteTsAndIn, None, 2, Some(2), 0), Future(Done, Some(WriteTsAndIn), 2, Some(2), 0)],
           [Cas(2, 1, 1, None), None], [1, 2, 0], 0, 0, 2, Writing, [false, false], 2)
  }
  ghost function Third7(): State { State([[2], [2]], [Third7x()], [1], [[[2], [2]]]) }
  lemma {:induction false} Third7Poll0() ensures Polls(Third6().clients[0], 0, 0, 1, Third7x(), true, false) {}
  lemma {:induction false} Third7Is() ensures Leads(Pair, Third6(), Third7()) {
    hide Reachable, Leads;
    Third7Poll0(); OnePolled(Third6().clients[0], {1}, 0, 0, 1, Third7x(), true, false);
    hide Polls, Forwarded, Stepped, Noted, Ready, Request;
    LeadsHere(Pair, Third6()); LeadsFurther(Pair, Third6(), Third6(), Forward(0, {1}), Third7());
  }
  ghost function Third8(): State { With(Third7(), [[1], [2]], 0, [Cas(2, 1, 1, Some(2)), None]) }
  lemma {:induction false} Third8Is() ensures Leads(Pair, Third6(), Third8()) {
    hide Reachable, Leads; Third7Is(); LeadsFurther(Pair, Third6(), Third7(), Swap(0, 0), Third8());
  }

  // Three servers. A guess of 8 succeeds at server 0 only; a new session replicates what its read buffer holds.

  ghost function Fourth0(): State { Init(Trio, TrioPlaces()) }
  lemma {:induction false} Fourth0Is() ensures Reachable(Trio, TrioPlaces(), Fourth0()) { Starts(Trio, TrioPlaces()); }
  ghost function Fourth1x(): Client {
    Client([Future(Done, Some(WriteAll), 0, None, 0), Future(Done, Some(WriteAll), 0, None, 0),
        Future(Done, Some(WriteAll), 0, None, 0)],
           [None, None, None], [2, 0, 0, 0], 0, 0, 0, Writing, [true, false, false], 2)
  }
  ghost function Fourth1(): State { State([[0], [0], [0]], [Fourth1x()], [2], [[[0], [0], [0]]]) }
  lemma {:induction false} Fourth1Is() ensures Reachable(Trio, TrioPlaces(), Fourth1()) {
    hide Reachable, Leads; Fourth0Is(); Reaches(Trio, TrioPlaces(), Fourth0(), Start(0, false, KWrite(2)), Fourth1());
  }
  ghost function Fourth2x(): Client {
    Client([Future(Done, Some(WriteAll), 0, None, 0), Future(WriteAll, None, 0, None, 0),
        Future(WriteAll, None, 0, None, 0)],
           [None, Cas(0, 2, 1, None), Cas(0, 2, 1, None)], [2, 0, 0, 0], 0, 0, 0, Writing, [true, false, false], 2)
  }
  ghost function Fourth2(): State { State([[0], [0], [0]], [Fourth2x()], [2], [[[0], [0], [0]]]) }
  ghost function Fourth2y(): Client {
    Client([Future(Done, Some(WriteAll), 0, None, 0), Future(WriteAll, None, 0, None, 0),
        Future(Done, Some(WriteAll), 0, None, 0)],
           [None, Cas(0, 2, 1, None), None], [2, 0, 0, 0], 0, 0, 0, Writing, [true, false, false], 2)
  }
  lemma {:induction false} Fourth2Poll1() ensures Polls(Fourth1().clients[0], 1, 0, 1, Fourth2y(), false, false) {}
  lemma {:induction false} Fourth2Poll2() ensures Polls(Fourth2y(), 2, 0, 1, Fourth2x(), false, false) {}
  lemma {:induction false} Fourth2Ends() ensures Forwarded(Fourth1().clients[0], {0}, 2, 0, 1) == Fourth2x() {
    Fourth2Poll1(); Fourth2Poll2();
    TwoPolled(Fourth1().clients[0], {0}, 1, 2, 0, 1, Fourth2y(), Fourth2x(), [false, false], [false, false]);
  }
  lemma {:induction false} Fourth2Is() ensures Reachable(Trio, TrioPlaces(), Fourth2()) {
    hide Reachable, Leads;
    Fourth2Ends();
    hide Polls, Forwarded, Stepped, Noted, Ready, Request;
    Fourth1Is(); Reaches(Trio, TrioPlaces(), Fourth1(), Forward(0, {0}), Fourth2());
  }
  ghost function Fourth3(): State { With(Fourth2(), [[0], [2], [0]], 0, [None, Cas(0, 2, 1, Some(0)), Cas(0, 2, 1, None)]) }
  lemma {:induction false} Fourth3Is() ensures Reachable(Trio, TrioPlaces(), Fourth3()) {
    hide Reachable, Leads; Fourth2Is(); Reaches(Trio, TrioPlaces(), Fourth2(), Swap(0, 1), Fourth3());
  }
  ghost function Fourth4(): State { With(Fourth3(), [[0], [2], [2]], 0,
      [None, Cas(0, 2, 1, Some(0)), Cas(0, 2, 1, Some(0))]) }
  lemma {:induction false} Fourth4Is() ensures Reachable(Trio, TrioPlaces(), Fourth4()) {
    hide Reachable, Leads; Fourth3Is(); Reaches(Trio, TrioPlaces(), Fourth3(), Swap(0, 2), Fourth4());
  }
  ghost function Fourth5x(): Client {
    Client([Future(Done, Some(Done), 0, None, 0), Future(Done, Some(Done), 2, Some(2), 0),
        Future(Done, Some(Done), 2, Some(2), 0)],
           [None, None, None], [2, 0, 2, 0], 0, 1, 2, Finished, [true, false, false], 2)
  }
  ghost function Fourth5(): State { State([[0], [2], [2]], [Fourth5x()], [2], [[[0], [0], [0]]]) }
  ghost function Fourth5y(): Client {
    Client([Future(Done, Some(WriteAll), 0, None, 0), Future(Done, None, 2, Some(2), 0), Future(WriteAll, None, 0, None, 0)],
           [None, None, Cas(0, 2, 1, Some(0))], [2, 0, 2, 0], 0, 1, 2, Writing, [true, false, false], 2)
  }
  lemma {:induction false} Fourth5Poll1() ensures Polls(Fourth4().clients[0], 1, 0, 1, Fourth5y(), true, true) {}
  ghost function Fourth5z(): Client { Fourth5x().(phase := Writing, futures := [Future(Done, Some(WriteAll), 0, None, 0),
      Future(Done, None, 2, Some(2), 0), Future(Done, None, 2, Some(2), 0)]) }
  lemma {:induction false} Fourth5Poll2() ensures Polls(Fourth5y(), 2, 0, 1, Fourth5z(), true, true) {}
  lemma {:induction false} Fourth5Ends() ensures Forwarded(Fourth4().clients[0], {0}, 2, 0, 1) == Fourth5x() {
    Fourth5Poll1(); Fourth5Poll2();
    TwoDone(Fourth4().clients[0], {0}, 1, 2, 0, 1, Fourth5y(), Fourth5z(), Fourth5x());
  }
  lemma {:induction false} Fourth5Is() ensures Reachable(Trio, TrioPlaces(), Fourth5()) {
    hide Reachable, Leads;
    Fourth5Ends();
    hide Polls, Forwarded, Stepped, Noted, Ready, Request;
    Fourth4Is(); Reaches(Trio, TrioPlaces(), Fourth4(), Forward(0, {0}), Fourth5());
  }
  ghost function Fourth6x(): Client {
    Client([Future(Done, Some(TryWriteAll), 0, None, 0), Future(Done, Some(TryWriteAll), 0, None, 0),
        Future(Done, Some(TryWriteAll), 0, None, 0)],
           [None, None, None], [8, 0, 2, 0], 0, 0, 0, TryWriting, [true, false, false], 8)
  }
  ghost function Fourth6(): State { State([[0], [2], [2]], [Fourth6x()], [8], [[[0], [2], [2]]]) }
  lemma {:induction false} Fourth6Is() ensures Reachable(Trio, TrioPlaces(), Fourth6()) {
    hide Reachable, Leads; Fourth5Is(); Reaches(Trio, TrioPlaces(), Fourth5(), Start(0, true, KTryWrite(8)), Fourth6());
  }
  ghost function Fourth7x(): Client {
    Client([Future(TryWriteAll, None, 0, None, 0), Future(TryWriteAll, None, 0, None, 0),
        Future(Done, Some(TryWriteAll), 0, None, 0)],
           [Cas(0, 8, 1, None), Cas(0, 8, 1, None), None], [8, 0, 2, 0], 0, 0, 0, TryWriting, [true, false, false], 8)
  }
  ghost function Fourth7(): State { State([[0], [2], [2]], [Fourth7x()], [8], [[[0], [2], [2]]]) }
  ghost function Fourth7y(): Client {
    Client([Future(TryWriteAll, None, 0, None, 0), Future(Done, Some(TryWriteAll), 0, None, 0),
        Future(Done, Some(TryWriteAll), 0, None, 0)],
           [Cas(0, 8, 1, None), None, None], [8, 0, 2, 0], 0, 0, 0, TryWriting, [true, false, false], 8)
  }
  lemma {:induction false} Fourth7Poll0() ensures Polls(Fourth6().clients[0], 0, 0, 1, Fourth7y(), false, false) {}
  lemma {:induction false} Fourth7Poll1() ensures Polls(Fourth7y(), 1, 0, 1, Fourth7x(), false, false) {}
  lemma {:induction false} Fourth7Ends() ensures Forwarded(Fourth6().clients[0], {2}, 2, 0, 1) == Fourth7x() {
    Fourth7Poll0(); Fourth7Poll1();
    TwoPolled(Fourth6().clients[0], {2}, 0, 1, 0, 1, Fourth7y(), Fourth7x(), [false, false], [false, false]);
  }
  lemma {:induction false} Fourth7Is() ensures Reachable(Trio, TrioPlaces(), Fourth7()) {
    hide Reachable, Leads;
    Fourth7Ends();
    hide Polls, Forwarded, Stepped, Noted, Ready, Request;
    Fourth6Is(); Reaches(Trio, TrioPlaces(), Fourth6(), Forward(0, {2}), Fourth7());
  }
  ghost function Fourth8(): State { With(Fourth7(), [[8], [2], [2]], 0, [Cas(0, 8, 1, Some(0)), Cas(0, 8, 1, None), None]) }
  lemma {:induction false} Fourth8Is() ensures Reachable(Trio, TrioPlaces(), Fourth8()) {
    hide Reachable, Leads; Fourth7Is(); Reaches(Trio, TrioPlaces(), Fourth7(), Swap(0, 0), Fourth8());
  }
  ghost function Fourth9(): State { With(Fourth8(), [[8], [2], [2]], 0,
      [Cas(0, 8, 1, Some(0)), Cas(0, 8, 1, Some(2)), None]) }
  lemma {:induction false} Fourth9Is() ensures Reachable(Trio, TrioPlaces(), Fourth9()) {
    hide Reachable, Leads; Fourth8Is(); Reaches(Trio, TrioPlaces(), Fourth8(), Swap(0, 1), Fourth9());
  }
  ghost function Fourth10x(): Client {
    Client([Future(Done, Some(Done), 8, Some(8), 0), Future(Done, Some(Done), 2, Some(2), 0),
        Future(Done, Some(Done), 0, None, 0)],
           [None, None, None], [8, 8, 2, 0], 0, 0, 8, Finished, [true, false, false], 8)
  }
  ghost function Fourth10(): State { State([[8], [2], [2]], [Fourth10x()], [8], [[[0], [2], [2]]]) }
  ghost function Fourth10y(): Client {
    Client([Future(Done, None, 8, Some(8), 0), Future(TryWriteAll, None, 0, None, 0),
        Future(Done, Some(TryWriteAll), 0, None, 0)],
           [None, Cas(0, 8, 1, Some(2)), None], [8, 8, 2, 0], 0, 0, 8, TryWriting, [true, false, false], 8)
  }
  lemma {:induction false} Fourth10Poll0() ensures Polls(Fourth9().clients[0], 0, 0, 1, Fourth10y(), true, true) {}
  ghost function Fourth10z(): Client { Fourth10x().(phase := TryWriting, futures := [Future(Done, None, 8, Some(8), 0),
      Future(Done, None, 2, Some(2), 0), Future(Done, Some(TryWriteAll), 0, None, 0)]) }
  lemma {:induction false} Fourth10Poll1() ensures Polls(Fourth10y(), 1, 0, 1, Fourth10z(), true, true) {}
  lemma {:induction false} Fourth10Ends() ensures Forwarded(Fourth9().clients[0], {2}, 2, 0, 1) == Fourth10x() {
    Fourth10Poll0(); Fourth10Poll1();
    TwoDone(Fourth9().clients[0], {2}, 0, 1, 0, 1, Fourth10y(), Fourth10z(), Fourth10x());
  }
  lemma {:induction false} Fourth10Is() ensures Reachable(Trio, TrioPlaces(), Fourth10()) {
    hide Reachable, Leads;
    Fourth10Ends();
    hide Polls, Forwarded, Stepped, Noted, Ready, Request;
    Fourth9Is(); Reaches(Trio, TrioPlaces(), Fourth9(), Forward(0, {2}), Fourth10());
  }
  ghost function Fourth11x(): Client {
    Client([Future(Done, Some(WriteAll), 0, None, 0), Future(Done, Some(WriteAll), 0, None, 0),
        Future(Done, Some(WriteAll), 0, None, 0)],
           [None, None, None], [8, 8, 2, 0], 1, 0, 0, Writing, [true, false, false], 9)
  }
  ghost function Fourth11(): State { State([[8], [2], [2]], [Fourth11x()], [8], [[[8], [2], [2]]]) }
  lemma {:induction false} Fourth11Goes() ensures Goes(Trio, Fourth10(), Start(0, true, KReplicate(false)), Fourth11()) {}
  ghost function Fourth12x(): Client {
    Client([Future(WriteAll, None, 0, None, 1), Future(Done, Some(WriteAll), 0, None, 0),
        Future(Done, Some(WriteAll), 0, None, 0)],
           [Cas(0, 8, 1, None), None, None], [8, 0, 2, 0], 1, 0, 0, Writing, [true, false, false], 9)
  }
  ghost function Fourth12(): State { State([[8], [2], [2]], [Fourth12x()], [8], [[[8], [2], [2]]]) }
  lemma {:induction false} Fourth12Poll0() ensures Polls(Fourth11().clients[0], 0, 0, 1, Fourth12x(), false, false) {}
  lemma {:induction false} Fourth12Is() ensures Leads(Trio, Fourth11(), Fourth12()) {
    hide Reachable, Leads;
    Fourth12Poll0(); OnePolled(Fourth11().clients[0], {1, 2}, 0, 0, 1, Fourth12x(), false, false);
    hide Polls, Forwarded, Stepped, Noted, Ready, Request;
    LeadsHere(Trio, Fourth11()); LeadsFurther(Trio, Fourth11(), Fourth11(), Forward(0, {1, 2}), Fourth12());
  }
  ghost function Fourth13x(): Client {
    Client([Future(WriteAll, Some(Done), 0, None, 1), Future(Done, Some(Done), 0, None, 0),
        Future(Done, Some(Done), 0, None, 0)],
           [Cas(0, 8, 1, None), None, None], [8, 0, 2, 0], 1, 0, 0, Finished, [true, false, false], 9)
  }
  ghost function Fourth13y(): Client {
    Client([Future(WriteAll, None, 0, None, 1), Future(Done, None, 0, None, 0), Future(Done, Some(WriteAll), 0, None, 0)],
           [Cas(0, 8, 1, None), None, None], [8, 0, 2, 0], 1, 0, 0, Writing, [true, false, false], 9)
  }
  lemma {:induction false} Fourth13Poll1() ensures Polls(Fourth12().clients[0], 1, 0, 1, Fourth13y(), true, true) {}
  ghost function Fourth13z(): Client { Fourth13x().(phase := Writing, futures := [Future(WriteAll, None, 0, None, 1),
      Future(Done, None, 0, None, 0), Future(Done, None, 0, None, 0)]) }
  lemma {:induction false} Fourth13Poll2() ensures Polls(Fourth13y(), 2, 0, 1, Fourth13z(), true, true) {}
  lemma {:induction false} Fourth13Ends() ensures Idle(Forwarded(Fourth12().clients[0], {0}, 2, 0, 1)) {
    Fourth13Poll1(); Fourth13Poll2();
    TwoDone(Fourth12().clients[0], {0}, 1, 2, 0, 1, Fourth13y(), Fourth13z(), Fourth13x());
  }

  // Two clients. One has written 8 at server 0 only; the other reads, and replicates before server 0 answers.

  ghost function Fresh3(): Client {
    Client([Future(Done, None, 0, None, 0), Future(Done, None, 0, None, 0), Future(Done, None, 0, None, 0)],
           [None, None, None], [0, 0, 0, 0], 0, 0, 0, Finished, [false, false, false], 0)
  }
  ghost function Fifth0(): State {
      State([[0, 0], [0, 0], [0, 0]], [Fresh3(), Fresh3()], [0, 0], [[[0, 0], [0, 0], [0, 0]], [[0, 0], [0, 0], [0, 0]]]) }
  lemma {:induction false} Fifth0Is() ensures Reachable(Shared, SharedPlaces(), Fifth0()) {
    AlikeSame(Init(Shared, SharedPlaces()), Fifth0());
    hide Reachable;
    Starts(Shared, SharedPlaces());
  }
  ghost function Fifth1x(): Client {
    Client([Future(Done, Some(WriteAll), 0, None, 0), Future(Done, Some(WriteAll), 0, None, 0),
        Future(Done, Some(WriteAll), 0, None, 0)],
           [None, None, None], [8, 0, 0, 0], 0, 0, 0, Writing, [false, false, false], 8)
  }
  ghost function Fifth1(): State {
      State([[0, 0], [0, 0], [0, 0]], [Fresh3(), Fifth1x()], [0, 8], [[[0, 0], [0, 0], [0, 0]], [[0, 0], [0, 0], [0, 0]]]) }
  lemma {:induction false} Fifth1Is() ensures Reachable(Shared, SharedPlaces(), Fifth1()) {
    hide Reachable, Leads; Fifth0Is(); Reaches(Shared, SharedPlaces(), Fifth0(), Start(1, false, KWrite(8)), Fifth1());
  }
  ghost function Fifth2x(): Client {
    Client([Future(WriteAll, None, 0, None, 0), Future(Done, Some(WriteAll), 0, None, 0),
        Future(Done, Some(WriteAll), 0, None, 0)],
           [Cas(0, 8, 2, None), None, None], [8, 0, 0, 0], 0, 0, 0, Writing, [false, false, false], 8)
  }
  ghost function Fifth2(): State {
      State([[0, 0], [0, 0], [0, 0]], [Fresh3(), Fifth2x()], [0, 8], [[[0, 0], [0, 0], [0, 0]], [[0, 0], [0, 0], [0, 0]]]) }
  lemma {:induction false} Fifth2Poll0() ensures Polls(Fifth1().clients[1], 0, 1, 2, Fifth2x(), false, false) {}
  lemma {:induction false} Fifth2Ends() ensures Forwarded(Fifth1().clients[1], {1, 2}, 2, 1, 2) == Fifth2x() {
    Fifth2Poll0();
    OnePolled(Fifth1().clients[1], {1, 2}, 0, 1, 2, Fifth2x(), false, false);
  }
  lemma {:induction false} Fifth2Is() ensures Reachable(Shared, SharedPlaces(), Fifth2()) {
    hide Reachable, Leads;
    Fifth2Ends();
    hide Polls, Forwarded, Stepped, Noted, Ready, Request;
    Fifth1Is(); Reaches(Shared, SharedPlaces(), Fifth1(), Forward(1, {1, 2}), Fifth2());
  }
  ghost function Writer(): Client {
    Client([Future(WriteAll, None, 0, None, 0), Future(Done, Some(WriteAll), 0, None, 0),
        Future(Done, Some(WriteAll), 0, None, 0)],
           [Cas(0, 8, 2, Some(0)), None, None], [8, 0, 0, 0], 0, 0, 0, Writing, [false, false, false], 8)
  }
  ghost function Fifth3(): State {
      State([[0, 8], [0, 0], [0, 0]], [Fresh3(), Writer()], [0, 8], [[[0, 0], [0, 0], [0, 0]], [[0, 0], [0, 0], [0, 0]]]) }
  lemma {:induction false} Fifth3Is() ensures Reachable(Shared, SharedPlaces(), Fifth3()) {
    hide Reachable, Leads; Fifth2Is(); Reaches(Shared, SharedPlaces(), Fifth2(), Swap(1, 0), Fifth3());
  }
  ghost function Fifth4x(): Client {
    Client([Future(Done, Some(WriteAll), 0, None, 0), Future(Done, Some(WriteAll), 0, None, 0),
        Future(Done, Some(WriteAll), 0, None, 0)],
           [None, None, None], [2, 0, 0, 0], 0, 0, 0, Writing, [false, false, false], 2)
  }
  ghost function Fifth4(): State {
      State([[0, 8], [0, 0], [0, 0]], [Fifth4x(), Writer()], [2, 8], [[[0, 8], [0, 0], [0, 0]], [[0, 0], [0, 0], [0, 0]]]) }
  lemma {:induction false} Fifth4Ruled() ensures RuleKept(Shared, Fifth3(), Start(0, false, KWrite(2))) {}
  lemma {:induction false} Fifth4Is() ensures Reachable(Shared, SharedPlaces(), Fifth4()) {
    Fifth4Ruled();
    hide RuleKept, Allowed;
    hide Reachable, Leads; Fifth3Is(); Reaches(Shared, SharedPlaces(), Fifth3(), Start(0, false, KWrite(2)), Fifth4());
  }
  ghost function Fifth5x(): Client {
    Client([Future(WriteAll, None, 0, None, 0), Future(WriteAll, None, 0, None, 0),
        Future(Done, Some(WriteAll), 0, None, 0)],
           [Cas(0, 2, 2, None), Cas(0, 2, 2, None), None], [2, 0, 0, 0], 0, 0, 0, Writing, [false, false, false], 2)
  }
  ghost function Fifth5(): State {
      State([[0, 8], [0, 0], [0, 0]], [Fifth5x(), Writer()], [2, 8], [[[0, 8], [0, 0], [0, 0]], [[0, 0], [0, 0], [0, 0]]]) }
  ghost function Fifth5y(): Client {
    Client([Future(WriteAll, None, 0, None, 0), Future(Done, Some(WriteAll), 0, None, 0),
        Future(Done, Some(WriteAll), 0, None, 0)],
           [Cas(0, 2, 2, None), None, None], [2, 0, 0, 0], 0, 0, 0, Writing, [false, false, false], 2)
  }
  lemma {:induction false} Fifth5Poll0() ensures Polls(Fifth4().clients[0], 0, 0, 2, Fifth5y(), false, false) {}
  lemma {:induction false} Fifth5Poll1() ensures Polls(Fifth5y(), 1, 0, 2, Fifth5x(), false, false) {}
  lemma {:induction false} Fifth5Ends() ensures Forwarded(Fifth4().clients[0], {2}, 2, 0, 2) == Fifth5x() {
    Fifth5Poll0(); Fifth5Poll1();
    TwoPolled(Fifth4().clients[0], {2}, 0, 1, 0, 2, Fifth5y(), Fifth5x(), [false, false], [false, false]);
  }
  lemma {:induction false} Fifth5Is() ensures Reachable(Shared, SharedPlaces(), Fifth5()) {
    hide Reachable, Leads;
    Fifth5Ends();
    hide Polls, Forwarded, Stepped, Noted, Ready, Request;
    Fifth4Is(); Reaches(Shared, SharedPlaces(), Fifth4(), Forward(0, {2}), Fifth5());
  }
  ghost function Fifth6(): State { With(Fifth5(), [[2, 8], [0, 0], [0, 0]], 0,
      [Cas(0, 2, 2, Some(0)), Cas(0, 2, 2, None), None]) }
  lemma {:induction false} Fifth6Is() ensures Reachable(Shared, SharedPlaces(), Fifth6()) {
    hide Reachable, Leads; Fifth5Is(); Reaches(Shared, SharedPlaces(), Fifth5(), Swap(0, 0), Fifth6());
  }
  ghost function Fifth7(): State { With(Fifth6(), [[2, 8], [2, 0], [0, 0]], 0,
      [Cas(0, 2, 2, Some(0)), Cas(0, 2, 2, Some(0)), None]) }
  lemma {:induction false} Fifth7Is() ensures Reachable(Shared, SharedPlaces(), Fifth7()) {
    hide Reachable, Leads; Fifth6Is(); Reaches(Shared, SharedPlaces(), Fifth6(), Swap(0, 1), Fifth7());
  }
  ghost function Fifth8x(): Client {
    Client([Future(Done, Some(Done), 2, Some(2), 0), Future(Done, Some(Done), 2, Some(2), 0),
        Future(Done, Some(Done), 0, None, 0)],
           [None, None, None], [2, 2, 0, 0], 0, 0, 2, Finished, [false, false, false], 2)
  }
  ghost function Fifth8(): State {
      State([[2, 8], [2, 0], [0, 0]], [Fifth8x(), Writer()], [2, 8], [[[0, 8], [0, 0], [0, 0]], [[0, 0], [0, 0], [0, 0]]]) }
  ghost function Fifth8y(): Client {
    Client([Future(Done, None, 2, Some(2), 0), Future(WriteAll, None, 0, None, 0), Future(Done, Some(WriteAll), 0, None, 0)],
           [None, Cas(0, 2, 2, Some(0)), None], [2, 2, 0, 0], 0, 0, 2, Writing, [false, false, false], 2)
  }
  lemma {:induction false} Fifth8Poll0() ensures Polls(Fifth7().clients[0], 0, 0, 2, Fifth8y(), true, true) {}
  ghost function Fifth8z(): Client { Fifth8x().(phase := Writing, futures := [Future(Done, None, 2, Some(2), 0),
      Future(Done, None, 2, Some(2), 0), Future(Done, Some(WriteAll), 0, None, 0)]) }
  lemma {:induction false} Fifth8Poll1() ensures Polls(Fifth8y(), 1, 0, 2, Fifth8z(), true, true) {}
  lemma {:induction false} Fifth8Ends() ensures Forwarded(Fifth7().clients[0], {2}, 2, 0, 2) == Fifth8x() {
    Fifth8Poll0(); Fifth8Poll1();
    TwoDone(Fifth7().clients[0], {2}, 0, 1, 0, 2, Fifth8y(), Fifth8z(), Fifth8x());
  }
  lemma {:induction false} Fifth8Is() ensures Reachable(Shared, SharedPlaces(), Fifth8()) {
    hide Reachable, Leads;
    Fifth8Ends();
    hide Polls, Forwarded, Stepped, Noted, Ready, Request;
    Fifth7Is(); Reaches(Shared, SharedPlaces(), Fifth7(), Forward(0, {2}), Fifth8());
  }
  ghost function Fifth9x(): Client {
    Client([Future(Done, Some(ReadTs), 2, Some(2), 0), Future(Done, Some(ReadTs), 2, Some(2), 0),
        Future(Done, Some(ReadTs), 0, None, 0)],
           [None, None, None], [2, 2, 0, 0], 0, 0, 2, Reading, [false, false, false], 2)
  }
  ghost function Fifth9(): State {
      State([[2, 8], [2, 0], [0, 0]], [Fifth9x(), Writer()], [0, 8], [[[2, 8], [2, 0], [0, 0]], [[0, 0], [0, 0], [0, 0]]]) }
  lemma {:induction false} Fifth9Ruled() ensures RuleKept(Shared, Fifth8(), Start(0, false, KRead)) {}
  lemma {:induction false} Fifth9Is() ensures Reachable(Shared, SharedPlaces(), Fifth9()) {
    Fifth9Ruled();
    hide RuleKept, Allowed;
    hide Reachable, Leads; Fifth8Is(); Reaches(Shared, SharedPlaces(), Fifth8(), Start(0, false, KRead), Fifth9());
  }
  ghost function Fifth10x(): Client {
    Client([Future(ReadTs, None, 2, Some(2), 0), Future(Done, Some(ReadTs), 2, Some(2), 0),
        Future(Done, Some(ReadTs), 0, None, 0)],
           [Look(2, 2, Unread(2)), None, None], [2, 2, 0, 0], 0, 0, 2, Reading, [false, false, false], 2)
  }
  ghost function Fifth10(): State {
      State([[2, 8], [2, 0], [0, 0]], [Fifth10x(), Writer()], [0, 8], [[[2, 8], [2, 0], [0, 0]], [[0, 0], [0, 0], [0, 0]]]) }
  lemma {:induction false} Fifth10Poll0() ensures Polls(Fifth9().clients[0], 0, 0, 2, Fifth10x(), false, false) {}
  lemma {:induction false} Fifth10Ends() ensures Forwarded(Fifth9().clients[0], {1, 2}, 2, 0, 2) == Fifth10x() {
    Fifth10Poll0();
    OnePolled(Fifth9().clients[0], {1, 2}, 0, 0, 2, Fifth10x(), false, false);
  }
  lemma {:induction false} Fifth10Is() ensures Reachable(Shared, SharedPlaces(), Fifth10()) {
    hide Reachable, Leads;
    Fifth10Ends();
    hide Polls, Forwarded, Stepped, Noted, Ready, Request;
    Fifth9Is(); Reaches(Shared, SharedPlaces(), Fifth9(), Forward(0, {1, 2}), Fifth10());
  }
  ghost function Fifth11x(): Client {
    Client([Future(ReadTs, None, 2, Some(2), 0), Future(ReadTs, None, 2, Some(2), 0), Future(ReadTs, None, 0, None, 0)],
           [Look(2, 2, Unread(2)), Look(2, 2, Unread(2)), Look(0, 2, Unread(2))], [2, 2, 0, 0], 0, 0, 2, Reading,
               [false, false, false], 2)
  }
  ghost function Fifth11(): State {
      State([[2, 8], [2, 0], [0, 0]], [Fifth11x(), Writer()], [0, 8], [[[2, 8], [2, 0], [0, 0]], [[0, 0], [0, 0], [0, 0]]]) }
  ghost function Fifth11y(): Client {
    Client([Future(ReadTs, None, 2, Some(2), 0), Future(ReadTs, None, 2, Some(2), 0),
        Future(Done, Some(ReadTs), 0, None, 0)],
           [Look(2, 2, Unread(2)), Look(2, 2, Unread(2)), None], [2, 2, 0, 0], 0, 0, 2, Reading, [false, false, false], 2)
  }
  lemma {:induction false} Fifth11Poll1() ensures Polls(Fifth10().clients[0], 1, 0, 2, Fifth11y(), false, false) {}
  lemma {:induction false} Fifth11Poll2() ensures Polls(Fifth11y(), 2, 0, 2, Fifth11x(), false, false) {}
  lemma {:induction false} Fifth11Ends() ensures Forwarded(Fifth10().clients[0], {0}, 2, 0, 2) == Fifth11x() {
    Fifth11Poll1(); Fifth11Poll2();
    TwoPolled(Fifth10().clients[0], {0}, 1, 2, 0, 2, Fifth11y(), Fifth11x(), [false, false], [false, false]);
  }
  lemma {:induction false} Fifth11Is() ensures Reachable(Shared, SharedPlaces(), Fifth11()) {
    hide Reachable, Leads;
    Fifth11Ends();
    hide Polls, Forwarded, Stepped, Noted, Ready, Request;
    Fifth10Is(); Reaches(Shared, SharedPlaces(), Fifth10(), Forward(0, {0}), Fifth11());
  }
  ghost function Fifth12(): State { With(Fifth11(), [[2, 8], [2, 0], [0, 0]], 0,
      [Look(2, 2, Unread(2)), Look(2, 2, Unread(2)[0 := Some(2)]), Look(0, 2, Unread(2))]) }
  lemma {:induction false} Fifth12Is() ensures Reachable(Shared, SharedPlaces(), Fifth12()) {
    hide Reachable, Leads; Fifth11Is(); Reaches(Shared, SharedPlaces(), Fifth11(), ReadSlot(0, 1, 0), Fifth12());
  }
  ghost function Fifth13(): State { With(Fifth12(), [[2, 8], [2, 0], [0, 0]], 0,
      [Look(2, 2, Unread(2)), Look(2, 2, Unread(2)[0 := Some(2)][1 := Some(0)]), Look(0, 2, Unread(2))]) }
  lemma {:induction false} Fifth13Is() ensures Reachable(Shared, SharedPlaces(), Fifth13()) {
    hide Reachable, Leads; Fifth12Is(); Reaches(Shared, SharedPlaces(), Fifth12(), ReadSlot(0, 1, 1), Fifth13());
  }
  ghost function Fifth14(): State { With(Fifth13(), [[2, 8], [2, 0], [0, 0]], 0,
      [Look(2, 2, Unread(2)), Look(2, 2, Unread(2)[0 := Some(2)][1 := Some(0)]), Look(0, 2, Unread(2)[0 := Some(0)])]) }
  lemma {:induction false} Fifth14Is() ensures Reachable(Shared, SharedPlaces(), Fifth14()) {
    hide Reachable, Leads; Fifth13Is(); Reaches(Shared, SharedPlaces(), Fifth13(), ReadSlot(0, 2, 0), Fifth14());
  }
  ghost function Fifth15(): State { With(Fifth14(), [[2, 8], [2, 0], [0, 0]], 0,
      [Look(2, 2, Unread(2)), Look(2, 2, Unread(2)[0 := Some(2)][1 := Some(0)]), Look(0, 2,
      Unread(2)[0 := Some(0)][1 := Some(0)])]) }
  lemma {:induction false} Fifth15Is() ensures Reachable(Shared, SharedPlaces(), Fifth15()) {
    hide Reachable, Leads; Fifth14Is(); Reaches(Shared, SharedPlaces(), Fifth14(), ReadSlot(0, 2, 1), Fifth15());
  }
  ghost function Fifth16x(): Client {
    Client([Future(ReadTs, Some(Done), 2, Some(2), 0), Future(Done, Some(Done), 2, Some(2), 0),
        Future(Done, Some(Done), 0, Some(0), 0)],
           [Look(2, 2, Unread(2)), None, None], [2, 2, 0, 0], 0, 0, 2, Finished, [false, false, false], 2)
  }
  ghost function Fifth16(): State {
      State([[2, 8], [2, 0], [0, 0]], [Fifth16x(), Writer()], [0, 8], [[[2, 8], [2, 0], [0, 0]], [[0, 0], [0, 0], [0, 0]]]) }
  ghost function Fifth16y(): Client {
    Client([Future(ReadTs, None, 2, Some(2), 0), Future(Done, None, 2, Some(2), 0), Future(ReadTs, None, 0, None, 0)],
           [Look(2, 2, Unread(2)), None, Look(0, 2, Unread(2)[0 := Some(0)][1 := Some(0)])],
               [2, 2, 0, 0], 0, 0, 2, Reading, [false, false, false], 2)
  }
  lemma {:induction false} Fifth16Poll1() ensures Polls(Fifth15().clients[0], 1, 0, 2, Fifth16y(), true, true) {}
  ghost function Fifth16z(): Client { Fifth16x().(phase := Reading, futures := [Future(ReadTs, None, 2, Some(2), 0),
      Future(Done, None, 2, Some(2), 0), Future(Done, None, 0, Some(0), 0)]) }
  lemma {:induction false} Fifth16Poll2() ensures Polls(Fifth16y(), 2, 0, 2, Fifth16z(), true, true) {}
  lemma {:induction false} Fifth16Ends() ensures Forwarded(Fifth15().clients[0], {0}, 2, 0, 2) == Fifth16x() {
    Fifth16Poll1(); Fifth16Poll2();
    TwoDone(Fifth15().clients[0], {0}, 1, 2, 0, 2, Fifth16y(), Fifth16z(), Fifth16x());
  }
  lemma {:induction false} Fifth16Is() ensures Reachable(Shared, SharedPlaces(), Fifth16()) {
    hide Reachable, Leads;
    Fifth16Ends();
    hide Polls, Forwarded, Stepped, Noted, Ready, Request;
    Fifth15Is(); Reaches(Shared, SharedPlaces(), Fifth15(), Forward(0, {0}), Fifth16());
  }
  ghost function Fifth17x(): Client {
    Client([Future(ReadTs, Some(WriteAll), 2, Some(2), 0), Future(Done, Some(WriteAll), 2, Some(2), 0),
        Future(Done, Some(WriteAll), 0, Some(0), 0)],
           [Look(2, 2, Unread(2)), None, None], [2, 3, 0, 0], 1, 0, 2, Writing, [false, false, false], 3)
  }
  ghost function Fifth17(): State {
      State([[2, 8], [2, 0], [0, 0]], [Fifth17x(), Writer()], [3, 8], [[[2, 8], [2, 0], [0, 0]], [[0, 0], [0, 0], [0, 0]]]) }
  lemma {:induction false} Fifth17Goes() ensures Goes(Shared, Fifth16(), Start(0, false, KReplicate(true)), Fifth17()) {}
  ghost function Fifth18x(): Client {
    Client([Future(ReadTs, Some(WriteAll), 2, Some(2), 0), Future(WriteTs, None, 2, Some(2), 1),
        Future(Done, Some(WriteAll), 0, Some(0), 0)],
           [Look(2, 2, Unread(2)), Cas(2, 3, 2, None), None], [2, 3, 0, 0], 1, 0, 2, Writing, [false, false, false], 3)
  }
  ghost function Fifth18(): State {
      State([[2, 8], [2, 0], [0, 0]], [Fifth18x(), Writer()], [3, 8], [[[2, 8], [2, 0], [0, 0]], [[0, 0], [0, 0], [0, 0]]]) }
  lemma {:induction false} Fifth18Poll1() ensures Polls(Fifth17().clients[0], 1, 0, 2, Fifth18x(), true, false) {}
  lemma {:induction false} Fifth18Ends() ensures Forwarded(Fifth17().clients[0], {0, 2}, 2, 0, 2) == Fifth18x() {
    Fifth18Poll1();
    OnePolled(Fifth17().clients[0], {0, 2}, 1, 0, 2, Fifth18x(), true, false);
  }
  lemma {:induction false} Fifth18Is() ensures Leads(Shared, Fifth17(), Fifth18()) {
    hide Reachable, Leads;
    Fifth18Ends();
    hide Polls, Forwarded, Stepped, Noted, Ready, Request;
    LeadsHere(Shared, Fifth17()); LeadsFurther(Shared, Fifth17(), Fifth17(), Forward(0, {0, 2}), Fifth18());
  }
  ghost function Fifth19(): State { With(Fifth18(), [[2, 8], [2, 0], [0, 0]], 0,
      [Look(2, 2, Unread(2)[0 := Some(2)]), Cas(2, 3, 2, None), None]) }
  lemma {:induction false} Fifth19Is() ensures Leads(Shared, Fifth17(), Fifth19()) {
    hide Reachable, Leads; Fifth18Is(); LeadsFurther(Shared, Fifth17(), Fifth18(), ReadSlot(0, 0, 0), Fifth19());
  }
  ghost function Fifth20(): State { With(Fifth19(), [[2, 8], [2, 0], [0, 0]], 0,
      [Look(2, 2, Unread(2)[0 := Some(2)][1 := Some(8)]), Cas(2, 3, 2, None), None]) }
  lemma {:induction false} Fifth20Is() ensures Leads(Shared, Fifth17(), Fifth20()) {
    hide Reachable, Leads; Fifth19Is(); LeadsFurther(Shared, Fifth17(), Fifth19(), ReadSlot(0, 0, 1), Fifth20());
  }
  ghost function Fifth21(): State { With(Fifth20(), [[2, 8], [3, 0], [0, 0]], 0,
      [Look(2, 2, Unread(2)[0 := Some(2)][1 := Some(8)]), Cas(2, 3, 2, Some(2)), None]) }
  lemma {:induction false} Fifth21Is() ensures Leads(Shared, Fifth17(), Fifth21()) {
    hide Reachable, Leads; Fifth20Is(); LeadsFurther(Shared, Fifth17(), Fifth20(), Swap(0, 1), Fifth21());
  }
  ghost function Fifth22x(): Client {
    Client([Future(Done, Some(Done), 8, Some(2), 0), Future(Done, Some(Done), 8, Some(8), 1),
        Future(Done, Some(Done), 0, Some(0), 0)],
           [None, None, None], [2, 8, 0, 0], 1, 0, 8, Finished, [false, false, false], 8)
  }
  ghost function Fifth22(): State {
      State([[2, 8], [3, 0], [0, 0]], [Fifth22x(), Writer()], [3, 8], [[[2, 8], [2, 0], [0, 0]], [[0, 0], [0, 0], [0, 0]]]) }
  ghost function Fifth22y(): Client {
    Client([Future(Done, None, 8, Some(2), 0), Future(WriteTs, None, 2, Some(2), 1),
        Future(Done, Some(WriteAll), 0, Some(0), 0)],
           [None, Cas(2, 3, 2, Some(2)), None], [2, 8, 0, 0], 1, 0, 8, Writing, [false, false, false], 8)
  }
  lemma {:induction false} Fifth22Poll0() ensures Polls(Fifth21().clients[0], 0, 0, 2, Fifth22y(), true, true) {}
  ghost function Fifth22z(): Client { Fifth22x().(phase := Writing, futures := [Future(Done, None, 8, Some(2), 0),
      Future(Done, None, 8, Some(8), 1), Future(Done, Some(WriteAll), 0, Some(0), 0)]) }
  lemma {:induction false} Fifth22Poll1() ensures Polls(Fifth22y(), 1, 0, 2, Fifth22z(), true, true) {}
  lemma {:induction false} Fifth22Ends() ensures Forwarded(Fifth21().clients[0], {2}, 2, 0, 2) == Fifth22x() {
    Fifth22Poll0(); Fifth22Poll1();
    TwoDone(Fifth21().clients[0], {2}, 0, 1, 0, 2, Fifth22y(), Fifth22z(), Fifth22x());
  }
  lemma {:induction false} Fifth22Is() ensures Leads(Shared, Fifth17(), Fifth22()) {
    hide Reachable, Leads;
    Fifth22Ends();
    hide Polls, Forwarded, Stepped, Noted, Ready, Request;
    Fifth21Is(); LeadsFurther(Shared, Fifth17(), Fifth21(), Forward(0, {2}), Fifth22());
  }
  ghost function Fifth23x(): Client {
    Client([Future(Done, Some(WriteAll), 8, Some(2), 0), Future(Done, Some(WriteAll), 8, Some(8), 1),
        Future(Done, Some(WriteAll), 0, Some(0), 0)],
           [None, None, None], [2, 9, 0, 0], 1, 0, 8, Writing, [false, false, false], 9)
  }
  ghost function Fifth23(): State {
      State([[2, 8], [3, 0], [0, 0]], [Fifth23x(), Writer()], [9, 8], [[[2, 8], [3, 0], [0, 0]], [[0, 0], [0, 0], [0, 0]]]) }
  lemma {:induction false} Fifth23Ruled() ensures RuleKept(Shared, Fifth22(), Start(0, false, KReplicate(true))) {}
  lemma {:induction false} Fifth23Is() ensures Leads(Shared, Fifth17(), Fifth23()) {
    Fifth23Ruled();
    hide RuleKept, Allowed;
    hide Reachable, Leads; Fifth22Is(); LeadsFurther(Shared, Fifth17(), Fifth22(), Start(0, false, KReplicate(true)),
        Fifth23());
  }
  ghost function Fifth24x(): Client {
    Client([Future(WriteTs, None, 8, Some(2), 1), Future(WriteTs, None, 8, Some(8), 1),
        Future(Done, Some(WriteAll), 0, Some(0), 0)],
           [Cas(2, 9, 2, None), Cas(8, 9, 2, None), None], [2, 9, 0, 0], 1, 0, 8, Linearized, [false, false, false], 9)
  }
  ghost function Fifth24y(): Client {
    Client([Future(WriteTs, None, 8, Some(2), 1), Future(Done, Some(WriteAll), 8, Some(8), 1),
        Future(Done, Some(WriteAll), 0, Some(0), 0)],
           [Cas(2, 9, 2, None), None, None], [2, 9, 0, 0], 1, 0, 8, Writing, [false, false, false], 9)
  }
  lemma {:induction false} Fifth24Poll0() ensures Polls(Fifth23().clients[0], 0, 0, 2, Fifth24y(), true, false) {}
  lemma {:induction false} Fifth24Poll1() ensures Polls(Fifth24y(), 1, 0, 2, Fifth24x().(phase := Writing), true, false) {}
  lemma {:induction false} Fifth24Ends() ensures Idle(Forwarded(Fifth23().clients[0], {2}, 2, 0, 2)) {
    Fifth24Poll0(); Fifth24Poll1();
    TwoPolled(Fifth23().clients[0], {2}, 0, 1, 0, 2, Fifth24y(), Fifth24x().(phase := Writing), [true, true],
        [false, false]);
  }

  // ---------- each rule is needed ----------

  lemma {:induction false} OnlyFirst(slots: seq<seq<nat>>, tsp: nat)
    requires forall s :: 1 <= s < |slots| ==> Verified(MaxOf(slots[s])) < tsp
    ensures |Holding(slots, tsp)| <= 1
  {
    SubsetSize(Holding(slots, tsp), {0});
  }

  /** A swap carrying 3 is out from the write entry. Writing 8 from there all the same, the client can be told
      that 8 is written while no majority holds it. */
  lemma {:induction false} FirstRuleNeeded()
    ensures Reachable(Pair, PairPlaces(), First7()) && WellFormed(Pair, First7()) && Possible(Pair, First7(), Start(0,
        false, KWrite(8)))
    ensures OtherRules(First7().clients[0], KWrite(8)) && CanMisreport(Pair, First7(), 0, false, KWrite(8))
  {
    First7Is(); FirstBreaks();
    ReachableTrue(Pair, PairPlaces(), First7());
    hide *;
    MisreportExactly(Pair, First7(), 0, false, KWrite(8));
  }

  lemma {:induction false} FirstBreaks()
    ensures WellFormed(Pair, First7()) && Possible(Pair, First7(), Start(0, false, KWrite(8)))
    ensures Writes(KWrite(8)) && 1 <= Pair.majority <= Pair.servers && KWrite(8).IsLocal() && KWrite(8).tsp == 8
    ensures OtherRules(First7().clients[0], KWrite(8)) && Fresh(First7().clients[0], false) == First7().clients[0]
    ensures |Holding(First7().slots, 8)| < Pair.majority
    ensures OutFrom(First7().clients[0], 0, 0) && !Harmless(First7().slots[0], 0, First7().clients[0].traffic[0].value, 8)
  {
    OnlyFirst(First7().slots, 8);
    hide Holding;
  }

  lemma {:induction false} ReachableTrue(cfg: Config, inPlace: seq<seq<bool>>, st: State)
    requires Reachable(cfg, inPlace, st)
    ensures Inv(cfg, st)
  {
    hide Inv, Apply, RuleKept;
    var states: seq<State>, events: seq<Event> :| IsRun(cfg, inPlace, states, events) && states[|events|] == st;
    RunKeepsInv(cfg, inPlace, states, events, |events|);
  }

  lemma {:induction false} Misleads(cfg: Config, a: State, b: State, c: nat, skip: set<nat>)
    requires Leads(cfg, a, b) && c < |b.goals| && Misreports(cfg, b, c, skip, b.goals[c])
    ensures Misled(cfg, a, c)
  {}

  lemma {:induction false} SecondLow() ensures |Holding(Second13().slots, 8)| <= 1 {
    OnlyFirst(Second13().slots, 8);
  }

  lemma {:induction false} SecondMisreports()
    ensures 0 < |Second13().goals| && Misreports(Pair, Second13(), 0, {}, Second13().goals[0])
  {
    hide Forwarded, Holding;
    Second14Ends(); SecondLow();
  }

  lemma {:induction false} SecondBreaks()
    ensures var x := Second7().clients[0]; var kind := KWrite(8);
            WellFormed(Pair, Second7()) && Possible(Pair, Second7(), Start(0, false, KWrite(8)))
            && !BuffersFree(x) && NotLower(x, kind) && BufferFilled(x, kind) && EntryFree(Second7().slots, 0, x, 8)
  {
    assert Second7().clients[0].traffic[0] == Second7x().traffic[0];
  }

  /** Swaps carrying 3 are out from a read buffer. A local write of 8 raises that buffer to 8 before the second
      swap is taken in, and server 1, which holds 3, counts for 8. */
  lemma {:induction false} SecondRuleNeeded()
    ensures var x := Second7().clients[0]; var kind := KWrite(8);
            && Reachable(Pair, PairPlaces(), Second7()) && WellFormed(Pair, Second7()) && Possible(Pair, Second7(), Start(0,
                false, KWrite(8)))
            && !BuffersFree(x) && NotLower(x, kind) && BufferFilled(x, kind) && EntryFree(Second7().slots, 0, x, 8)
            && Misled(Pair, Apply(Pair, Second7(), Start(0, false, KWrite(8))), 0)
  {
    Second7Is(); Second8Goes(); SecondBreaks(); Second13Is(); SecondMisreports();
    hide *;
    GoesTo(Pair, Second7(), Start(0, false, KWrite(8)), Second8());
    Misleads(Pair, Second8(), Second13(), 0, {});
  }

  lemma {:induction false} ThirdBreaks()
    ensures var x := Base5().clients[0]; var kind := KWriteTsAndIn(1);
            WellFormed(Pair, Base5()) && Possible(Pair, Base5(), Start(0, false, kind)) && !NoneFalls(Pair, Base5(),
                Third8())
            && BuffersFree(x) && !NotLower(x, kind) && BufferFilled(x, kind) && EntryFree(Base5().slots, 0, x, 1)
  {
    assert Base5().slots[0][0] == 2 && Third8().slots[0][0] == 1;
  }

  /** With nothing out, 1 is written without looking over 2: the slot falls. */
  lemma {:induction false} ThirdRuleNeeded()
    ensures var x := Base5().clients[0]; var kind := KWriteTsAndIn(1);
            && Reachable(Pair, PairPlaces(), Base5()) && WellFormed(Pair, Base5()) && Possible(Pair, Base5(), Start(0,
                false, kind))
            && BuffersFree(x) && !NotLower(x, kind) && BufferFilled(x, kind) && EntryFree(Base5().slots, 0, x, 1)
            && Leads(Pair, Apply(Pair, Base5(), Start(0, false, kind)), Third8()) && !NoneFalls(Pair, Base5(), Third8())
  {
    Base5Is(); Third6Goes(); Third8Is(); ThirdBreaks();
    hide *;
    GoesTo(Pair, Base5(), Start(0, false, KWriteTsAndIn(1)), Third6());
  }

  lemma {:induction false} FourthLow() ensures |Holding(Fourth12().slots, 8)| <= 1 {
    OnlyFirst(Fourth12().slots, 8);
  }

  lemma {:induction false} FourthMisreports()
    ensures 0 < |Fourth12().goals| && Misreports(Trio, Fourth12(), 0, {0}, Fourth12().goals[0])
  {
    hide Forwarded, Holding;
    Fourth13Ends(); FourthLow();
  }

  lemma {:induction false} FourthBreaks()
    ensures var x := Fresh(Fourth10().clients[0], true); var kind := KReplicate(false);
            WellFormed(Trio, Fourth10()) && Possible(Trio, Fourth10(), Start(0, true, KReplicate(false)))
            && BuffersFree(x) && NotLower(x, kind) && x.maxTsp == 0 && x.traffic[x.readEntry].None?
  {
    assert Fourth10().clients[0].traffic[0] == Fourth10x().traffic[0];
  }

  /** In a new session the read buffer still holds the 8 of an earlier one, which only server 0 holds. Replicated
      without a read, it is emptied by server 0 and then counts as written at the others. */
  lemma {:induction false} FourthRuleNeeded()
    ensures var x := Fresh(Fourth10().clients[0], true); var kind := KReplicate(false);
            && Reachable(Trio, TrioPlaces(), Fourth10()) && WellFormed(Trio, Fourth10()) && Possible(Trio, Fourth10(),
                Start(0, true, KReplicate(false)))
            && BuffersFree(x) && NotLower(x, kind) && x.maxTsp == 0 && x.traffic[x.readEntry].None?
            && Misled(Trio, Apply(Trio, Fourth10(), Start(0, true, KReplicate(false))), 0)
  {
    Fourth10Is(); Fourth11Goes(); FourthBreaks(); Fourth12Is(); FourthMisreports();
    hide *;
    GoesTo(Trio, Fourth10(), Start(0, true, KReplicate(false)), Fourth11());
    Misleads(Trio, Fourth11(), Fourth12(), 0, {0});
  }

  lemma {:induction false} FifthLow() ensures |Holding(Fifth23().slots, 9)| <= 1 {
    OnlyFirst(Fifth23().slots, 9);
  }

  lemma {:induction false} FifthMisreports()
    ensures 0 < |Fifth23().goals| && Misreports(Shared, Fifth23(), 0, {2}, Fifth23().goals[0])
  {
    hide Forwarded, Holding;
    Fifth24Ends(); FifthLow();
  }

  lemma {:induction false} FifthBreaks()
    ensures var x := Fifth16().clients[0]; var kind := KReplicate(true);
            WellFormed(Shared, Fifth16()) && Possible(Shared, Fifth16(), Start(0, false, KReplicate(true)))
            && BuffersFree(x) && NotLower(x, kind) && x.maxTsp > 0 && x.traffic[x.readEntry].Some?
  {
    assert Fifth16().clients[0].traffic[0] == Fifth16x().traffic[0];
  }

  /** While server 0's timestamps are still being read, its buffer is replicated. The read finds 8 there, which
      raises the buffer, and server 1, where 3 was written from it, counts for 8 from then on. */
  lemma {:induction false} FifthRuleNeeded()
    ensures var x := Fifth16().clients[0]; var kind := KReplicate(true);
            && Reachable(Shared, SharedPlaces(), Fifth16()) && WellFormed(Shared, Fifth16()) && Possible(Shared, Fifth16(),
                Start(0, false, KReplicate(true)))
            && BuffersFree(x) && NotLower(x, kind) && x.maxTsp > 0 && x.traffic[x.readEntry].Some?
            && Misled(Shared, Apply(Shared, Fifth16(), Start(0, false, KReplicate(true))), 0)
  {
    Fifth16Is(); Fifth17Goes(); FifthBreaks(); Fifth23Is(); FifthMisreports();
    hide *;
    GoesTo(Shared, Fifth16(), Start(0, false, KReplicate(true)), Fifth17());
    Misleads(Shared, Fifth17(), Fifth23(), 0, {2});
  }
}
