/** From what `parse` returns back to a tree of the grammar, and both ways together. */
module Derivations {
  import opened Core
  import opened Texts
  import opened Values
  import opened Parser
  import opened Grammar

  // ------------------------------------------------- from what was read to a tree

  lemma BlankConcat(a: Text, b: Text)
    requires Blank(a) && Blank(b)
    ensures Blank(a + b)
  {
  }

  lemma ScalarOf(t: Text, depth: nat) returns (x: Tree)
    requires ParseScalar(t).Ok? && depth <= 32
    ensures Proper(x, depth) && Mean(x, depth) == ParseScalar(t).value.0 && t == Spell(x) + ParseScalar(t).value.1
  {
    hide ParseNumber, DigitsMean;
    if StartsWithWord(t, TRUE_WORD) {
      x := Word(Bool(true));
    } else if StartsWithWord(t, FALSE_WORD) {
      x := Word(Bool(false));
    } else if StartsWithWord(t, NULL_WORD) {
      x := Word(Null);
    } else {
      var minus, digits := NumberOf(t);
      x := Number(minus, digits);
    }
  }

  /** Whatever is read was spelled by a tree that means it. */
  lemma {:induction false} TreeOf(t: Text, depth: nat) returns (gap: Text, x: Tree)
    requires ParseValue(t, depth).Ok?
    ensures Blank(gap) && Proper(x, depth) && Mean(x, depth) == ParseValue(t, depth).value.0
    ensures t == gap + Spell(x) + ParseValue(t, depth).value.1
    decreases |t|, 0
  {
    hide SkipSpace, ParseString, ParseScalar, ParseItems, ParseFields, Spell, Mean, Proper, Blank;
    gap := Skipped(t);
    var u := SkipSpace(t);
    if StartsWith(u, QUOTE) {
      var gs := LiteralOf(u);
      x := Literal(gs);
      LiteralTree(gs, depth);
    } else if StartsWith(u, OPEN_BRACE) {
      x := TableOf(u, depth);
    } else if StartsWith(u, OPEN_BRACKET) {
      x := ListOf(u, depth);
    } else {
      x := ScalarOf(u, depth);
    }
    var rest := ParseValue(t, depth).value.1;
    assert gap + (Spell(x) + rest) == gap + Spell(x) + rest;
  }

  lemma LiteralTree(gs: seq<Glyph>, depth: nat)
    requires GlyphsOk(gs) && WellFormed(GlyphsMean(gs)) && depth <= 32
    ensures Proper(Literal(gs), depth) && Mean(Literal(gs), depth) == Str(GlyphsMean(gs)) && Spell(Literal(gs)) == LiteralText(gs)
  {
  }

  // ----------------------------------------------------------------------- lists

  /** A list of these items. */
  function Of(items: seq<Item>): Tree {
    List([], items)
  }

  lemma {:induction false} ItemsShift(one: Item, items: seq<Item>, i: nat)
    requires i < |items|
    ensures SpellItems(Of([one] + items), i + 1) == SpellItems(Of(items), i)
    decreases |items| - i
  {
    hide Spell;
    if i + 1 < |items| {
      ItemsShift(one, items, i + 1);
    }
  }

  lemma {:induction false} MeansShift(one: Item, items: seq<Item>, depth: nat, n: nat)
    requires Proper(Of(items), depth) && Proper(Of([one] + items), depth) && n <= |items|
    requires Proper(one.tree, depth + 1)
    ensures MeanItems(Of([one] + items), depth, n + 1) == [Mean(one.tree, depth + 1)] + MeanItems(Of(items), depth, n)
    decreases n
  {
    hide Mean;
    if n > 0 {
      MeansShift(one, items, depth, n - 1);
      ItemOk(Of(items), depth, n - 1);
    } else {
      assert MeanItems(Of([one] + items), depth, 0) == [];
    }
  }

  lemma ItemsProper(one: Item, items: seq<Item>, depth: nat)
    requires Proper(Of(items), depth) && Blank(one.before) && Blank(one.after) && Proper(one.tree, depth + 1)
    ensures Proper(Of([one] + items), depth)
  {
    hide Blank;
    assert Blank([]) by { NothingIsBlank(); }
    var all := [one] + items;
    forall i | 0 <= i < |all|
      ensures Blank(all[i].before) && Blank(all[i].after) && Proper(all[i].tree, depth + 1)
    {
      if i > 0 {
        assert all[i] == items[i - 1];
      }
    }
  }

  lemma NoItems(depth: nat)
    requires depth <= 32
    ensures Proper(Of([]), depth)
  {
  }

  /** One more item in front. */
  lemma ItemInFront(one: Item, items: seq<Item>, depth: nat, done: seq<Value>)
    requires Proper(Of(items), depth) && Blank(one.before) && Blank(one.after) && Proper(one.tree, depth + 1)
    ensures
      var x := Of([one] + items);
      && Proper(x, depth)
      && SpellItems(x, 0) == one.before + Spell(one.tree) + one.after + (if items == [] then [] else [0x2C] + SpellItems(Of(items), 0))
      && done + MeanItems(x, depth, |items| + 1) == done + [Mean(one.tree, depth + 1)] + MeanItems(Of(items), depth, |items|)
  {
    hide Spell, Mean, Proper, Blank, MeanItems;
    ItemsProper(one, items, depth);
    MeansShift(one, items, depth, |items|);
    if items != [] {
      ItemsShift(one, items, 0);
    }
  }

  lemma {:induction false} ItemsOf(t: Text, depth: nat, done: seq<Value>) returns (items: seq<Item>)
    requires ParseItems(t, depth, done).Ok? && depth <= 32
    ensures items != [] && Proper(Of(items), depth)
    ensures ParseItems(t, depth, done).value.0 == Arr(done + MeanItems(Of(items), depth, |items|))
    ensures t == SpellItems(Of(items), 0) + [0x5D] + ParseItems(t, depth, done).value.1
    decreases |t|, 1
  {
    hide SkipSpace, ParseValue, Spell, SpellItems, Mean, MeanItems, Proper, Blank;
    var r := ParseItems(t, depth, done).value;
    var before := Skipped(t);
    var gap, x := TreeOf(SkipSpace(t), depth + 1);
    var item := ParseValue(SkipSpace(t), depth + 1).value;
    var after := Skipped(item.1);
    var u := SkipSpace(item.1);
    BlankConcat(before, gap);
    var one := Item(before + gap, x, after);
    var rest: seq<Item> := [];
    if StartsWith(u, CLOSE_BRACKET) {
      NoItems(depth);
      NoMeans(depth);
    } else {
      rest := ItemsOf(u[1..], depth, done + [item.0]);
    }
    items := [one] + rest;
    ItemInFront(one, rest, depth, done);
    TakeApart(t, before, gap, Spell(x), item.1, after, u);
    if rest == [] {
      assert u == [0x5D] + r.1 by { FirstOff(u); }
      assert done + [item.0] + [] == done + [item.0];
    } else {
      assert u == [0x2C] + u[1..] by { FirstOff(u); }
      assert u == [0x2C] + SpellItems(Of(rest), 0) + [0x5D] + r.1;
    }
    assert t == one.before + Spell(x) + after + u;
  }

  lemma NoMeans(depth: nat)
    requires Proper(Of([]), depth)
    ensures MeanItems(Of([]), depth, 0) == []
  {
  }

  lemma FirstOff(u: Text)
    requires u != []
    ensures u == [u[0]] + u[1..]
  {
  }

  lemma TakeApart(t: Text, before: Text, gap: Text, spelled: Text, behind: Text, after: Text, u: Text)
    requires t == before + (gap + spelled + behind) && behind == after + u
    ensures t == before + gap + spelled + after + u
  {
  }

  lemma ListOf(t: Text, depth: nat) returns (x: Tree)
    requires StartsWith(t, OPEN_BRACKET) && depth <= 32
    requires
      var u := SkipSpace(t[1..]);
      StartsWith(u, CLOSE_BRACKET) || ParseItems(u, depth, []).Ok?
    ensures
      var u := SkipSpace(t[1..]);
      var r := if StartsWith(u, CLOSE_BRACKET) then (Arr([]), u[1..]) else ParseItems(u, depth, []).value;
      Proper(x, depth) && Mean(x, depth) == r.0 && t == Spell(x) + r.1
    decreases |t|, 0, 0
  {
    hide SkipSpace, ParseItems, SpellItems, Blank;
    var gap := Skipped(t[1..]);
    var u := SkipSpace(t[1..]);
    FirstOff(t);
    if StartsWith(u, CLOSE_BRACKET) {
      x := List(gap, []);
      FirstOff(u);
      assert t == [0x5B] + gap + [0x5D] + u[1..];
    } else {
      var items := ItemsOf(u, depth, []);
      var r := ParseItems(u, depth, []).value;
      var widened := items[0].(before := gap + items[0].before);
      x := Of([widened] + items[1..]);
      Widen(items, gap, depth);
      assert [] + MeanItems(Of(items), depth, |items|) == MeanItems(Of(items), depth, |items|);
      assert t == [0x5B] + (gap + (SpellItems(Of(items), 0) + [0x5D] + r.1));
      assert t == [0x5B] + (gap + SpellItems(Of(items), 0)) + [0x5D] + r.1;
    }
  }

  /** More blanks in front of the first item. */
  lemma Widen(items: seq<Item>, gap: Text, depth: nat)
    requires items != [] && Proper(Of(items), depth) && Blank(gap)
    ensures
      var x := Of([items[0].(before := gap + items[0].before)] + items[1..]);
      && Proper(x, depth) && SpellItems(x, 0) == gap + SpellItems(Of(items), 0)
      && Mean(x, depth) == Arr(MeanItems(Of(items), depth, |items|))
  {
    hide Spell, Blank, MeanItems;
    var first, rest := items[0], items[1..];
    var wide := first.(before := gap + first.before);
    assert items == [first] + rest;
    ItemOk(Of(items), depth, 0);
    RestProper(items, depth);
    BlankConcat(gap, first.before);
    ItemInFront(first, rest, depth, []);
    ItemInFront(wide, rest, depth, []);
    var more := if rest == [] then [] else [0x2C] + SpellItems(Of(rest), 0);
    assert gap + first.before + Spell(first.tree) + first.after + more == gap + (first.before + Spell(first.tree) + first.after + more);
    EmptyInFront(MeanItems(Of([wide] + rest), depth, |rest| + 1));
    EmptyInFront(MeanItems(Of(items), depth, |rest| + 1));
    MeanList(Of([wide] + rest), depth);
  }

  lemma EmptyInFront(s: seq<Value>)
    ensures [] + s == s
  {
  }

  lemma RestProper(items: seq<Item>, depth: nat)
    requires items != [] && Proper(Of(items), depth)
    ensures Proper(Of(items[1..]), depth)
  {
    hide Blank;
    forall i | 0 <= i < |items[1..]|
      ensures Blank(items[1..][i].before) && Blank(items[1..][i].after) && Proper(items[1..][i].tree, depth + 1)
    {
      assert items[1..][i] == items[i + 1];
    }
  }

  // --------------------------------------------------------------------- tables

  function Tab(members: seq<Member>): Tree {
    Table([], members)
  }

  lemma {:induction false} MembersShift(one: Member, members: seq<Member>, i: nat)
    requires i < |members|
    ensures SpellMembers(Tab([one] + members), i + 1) == SpellMembers(Tab(members), i)
    decreases |members| - i
  {
    hide Spell, LiteralText;
    if i + 1 < |members| {
      MembersShift(one, members, i + 1);
    }
  }

  lemma {:induction false} TableMeansShift(one: Member, members: seq<Member>, depth: nat, n: nat)
    requires Proper(Tab(members), depth) && Proper(Tab([one] + members), depth) && n <= |members|
    requires MemberOk(one) && Proper(one.item.tree, depth + 1)
    ensures MeanMembers(Tab([one] + members), depth, n + 1) ==
      map[GlyphsMean(one.name) := Mean(one.item.tree, depth + 1)] + MeanMembers(Tab(members), depth, n)
    decreases n
  {
    hide *;
    TabIs([one] + members);
    TabIs(members);
    MemberNamed(one);
    MeanTable(Tab([one] + members), depth);
    MeanTable(Tab(members), depth);
    TabSays(one, members, depth, n);
    MeanNext(Tab([one] + members), depth, n);
    if n > 0 {
      TableMeansShift(one, members, depth, n - 1);
      MeanNext(Tab(members), depth, n - 1);
    }
  }

  lemma TabSays(one: Member, members: seq<Member>, depth: nat, n: nat)
    requires Proper(Tab(members), depth) && Proper(Tab([one] + members), depth) && n <= |members|
    ensures Tab(members).Table? && Tab(members).members == members
    ensures Tab([one] + members).Table? && Tab([one] + members).members == [one] + members
    ensures MemberOk(one)
    ensures NameAt(Tab([one] + members), depth, n) == (if n == 0 then GlyphsMean(one.name) else NameAt(Tab(members), depth, n - 1))
  {
    hide GlyphsMean, WellFormed, Blank;
    MemberSays(Tab([one] + members), depth, 0);
  }

  lemma NoMembers(depth: nat)
    requires depth <= 32
    ensures Proper(Tab([]), depth) && MeanMembers(Tab([]), depth, 0) == map[]
  {
  }

  lemma MemberNamed(one: Member)
    requires MemberOk(one)
    ensures GlyphsOk(one.name)
  {
  }

  lemma MembersProper(one: Member, members: seq<Member>, depth: nat)
    requires Proper(Tab(members), depth) && MemberOk(one) && Proper(one.item.tree, depth + 1)
    requires forall i: nat :: i < |members| ==> NameAt(Tab(members), depth, i) != GlyphsMean(one.name)
    ensures Proper(Tab([one] + members), depth)
  {
    MemberNamed(one);
    hide MemberOk, GlyphsMean, WellFormed, Blank;
    assert Blank([]) by { NothingIsBlank(); }
    var all := [one] + members;
    forall i | 0 <= i < |all|
      ensures MemberOk(all[i]) && Proper(all[i].item.tree, depth + 1)
    {
      if i > 0 {
        assert all[i] == members[i - 1];
      }
    }
    AllNamed(all);
    forall i, j | 0 <= i < j < |all|
      ensures NameOf(all[i]) != NameOf(all[j])
    {
      assert NameOf(all[j]) == NameAt(Tab(members), depth, j - 1);
      if i > 0 {
        assert NameOf(all[i]) == NameAt(Tab(members), depth, i - 1);
      }
    }
  }

  function NameOf(m: Member): Text {
    if GlyphsOk(m.name) then GlyphsMean(m.name) else []
  }

  lemma AllNamed(all: seq<Member>)
    requires forall i | 0 <= i < |all| :: MemberOk(all[i])
    ensures forall i | 0 <= i < |all| :: GlyphsOk(all[i].name) && NameOf(all[i]) == GlyphsMean(all[i].name)
  {
    hide GlyphsMean, WellFormed, Blank;
  }

  /** One more member in front. */
  lemma MemberInFront(one: Member, members: seq<Member>, depth: nat, done: map<Text, Value>)
    requires Proper(Tab(members), depth) && MemberOk(one) && Proper(one.item.tree, depth + 1)
    requires GlyphsMean(one.name) !in done
    requires forall i: nat :: i < |members| ==>
      NameAt(Tab(members), depth, i) !in done[GlyphsMean(one.name) := Mean(one.item.tree, depth + 1)]
    ensures
      var x := Tab([one] + members);
      && Proper(x, depth)
      && (forall i: nat :: i <= |members| ==> NameAt(x, depth, i) !in done)
      && SpellMembers(x, 0) ==
           one.lead + LiteralText(one.name) + one.gap + [0x3A] + one.item.before + Spell(one.item.tree) + one.item.after
           + (if members == [] then [] else [0x2C] + SpellMembers(Tab(members), 0))
      && done + MeanMembers(x, depth, |members| + 1) ==
           done[GlyphsMean(one.name) := Mean(one.item.tree, depth + 1)] + MeanMembers(Tab(members), depth, |members|)
  {
    hide Spell, Mean, Proper, Blank, MeanMembers, GlyphsMean, WellFormed, LiteralText;
    MembersProper(one, members, depth);
    TableMeansShift(one, members, depth, |members|);
    forall i: nat | i <= |members|
      ensures NameAt(Tab([one] + members), depth, i) !in done
    {
      TabSays(one, members, depth, i);
    }
    if members != [] {
      MembersShift(one, members, 0);
    }
  }

  /** One member as the loop reads it, and where the loop goes on. */
  lemma OneMemberOf(t: Text, depth: nat, done: map<Text, Value>) returns (one: Member, key: (Text, Text), item: (Value, Text), w: Text)
    requires ParseFields(t, depth, done).Ok? && depth <= 32
    ensures MemberOk(one) && Proper(one.item.tree, depth + 1) && GlyphsMean(one.name) !in done
    ensures w == SkipSpace(item.1) && |w| < |t| && w != []
    ensures item.0 == Mean(one.item.tree, depth + 1)
    ensures t == one.lead + LiteralText(one.name) + one.gap + [0x3A] + one.item.before + Spell(one.item.tree) + one.item.after + w
    ensures
      var now := done[GlyphsMean(one.name) := item.0];
      if StartsWith(w, CLOSE_BRACE) then ParseFields(t, depth, done) == Ok((Obj(now), w[1..]))
      else StartsWith(w, COMMA) && ParseFields(t, depth, done) == ParseFields(w[1..], depth, now)
    decreases |t|, 1, 0
  {
    hide SkipSpace, ParseString, ParseValue, Spell, Mean, Proper, Blank, WellFormed, LiteralText, GlyphsMean;
    var lead := Skipped(t);
    var t1 := SkipSpace(t);
    key := ParseString(t1).value;
    var gs := LiteralOf(t1);
    var gap := Skipped(key.1);
    var u := SkipSpace(key.1);
    item := ParseValue(u[1..], depth + 1).value;
    var before, x := TreeOf(u[1..], depth + 1);
    var after := Skipped(item.1);
    w := SkipSpace(item.1);
    one := Member(lead, gs, gap, Item(before, x, after));
    FirstOff(u);
    NameIsOk(gs);
    MemberApart(t, lead, t1, LiteralText(gs), key.1, gap, u, before, Spell(x), item.1, after, w);
  }

  lemma NameIsOk(gs: seq<Glyph>)
    requires GlyphsOk(gs) && IsAscii(GlyphsMean(gs))
    ensures forall i | 0 <= i < |gs| :: GlyphsMean(gs)[i] < 128
  {
  }

  lemma MemberApart(t: Text, lead: Text, t1: Text, name: Text, k: Text, gap: Text, u: Text, before: Text, spelled: Text, v: Text, after: Text, w: Text)
    requires t == lead + t1 && t1 == name + k && k == gap + u && u != [] && u == [0x3A] + u[1..]
    requires u[1..] == before + spelled + v && v == after + w
    ensures t == lead + name + gap + [0x3A] + before + spelled + after + w
  {
    assert u == [0x3A] + (before + spelled + (after + w));
    Gather(lead, name, gap, [0x3A], before, spelled, after, w, []);
  }

  lemma {:induction false} MembersOf(t: Text, depth: nat, done: map<Text, Value>) returns (members: seq<Member>)
    requires ParseFields(t, depth, done).Ok? && depth <= 32
    ensures members != [] && Proper(Tab(members), depth)
    ensures forall i: nat :: i < |members| ==> NameAt(Tab(members), depth, i) !in done
    ensures ParseFields(t, depth, done).value.0 == Obj(done + MeanMembers(Tab(members), depth, |members|))
    ensures t == SpellMembers(Tab(members), 0) + [0x7D] + ParseFields(t, depth, done).value.1
    decreases |t|, 2, 0
  {
    hide *;
    var one, key, item, w := OneMemberOf(t, depth, done);
    MemberNamed(one);
    var now := done[GlyphsMean(one.name) := item.0];
    var rest: seq<Member> := [];
    NoMembers(depth);
    TabIs(rest);
    BraceOrComma(w);
    if !StartsWith(w, CLOSE_BRACE) {
      rest := MembersOf(w[1..], depth, now);
    }
    members := [one] + rest;
    TabIs(rest);
    TabIs(members);
    MemberInFront(one, rest, depth, done);
    var r := ParseFields(t, depth, done).value;
    var front := one.lead + LiteralText(one.name) + one.gap + [0x3A] + one.item.before + Spell(one.item.tree) + one.item.after;
    if rest == [] {
      assert front + w == front + [] + [0x7D] + w[1..];
      assert now + map[] == now;
    } else {
      assert front + w == front + ([0x2C] + SpellMembers(Tab(rest), 0)) + [0x7D] + r.1;
    }
  }

  lemma TabIs(members: seq<Member>)
    ensures Tab(members).Table? && Tab(members).members == members
  {
  }

  lemma BraceOrComma(w: Text)
    ensures StartsWith(w, CLOSE_BRACE) ==> w == [0x7D] + w[1..]
    ensures StartsWith(w, COMMA) ==> w == [0x2C] + w[1..]
  {
  }

  /** More blanks in front of the first member. */
  lemma WidenMembers(members: seq<Member>, gap: Text, depth: nat)
    requires members != [] && Proper(Tab(members), depth) && Blank(gap)
    ensures
      var x := Tab([members[0].(lead := gap + members[0].lead)] + members[1..]);
      && Proper(x, depth) && SpellMembers(x, 0) == gap + SpellMembers(Tab(members), 0)
      && Mean(x, depth) == Obj(MeanMembers(Tab(members), depth, |members|))
  {
    hide *;
    var first, rest := members[0], members[1..];
    var wide := first.(lead := gap + first.lead);
    assert members == [first] + rest;
    TabIs(members);
    TabIs(rest);
    TabIs([wide] + rest);
    MemberSays(Tab(members), depth, 0);
    RestMembers(members, depth);
    WiderOk(first, gap);
    MemberInFront(first, rest, depth, map[]);
    MemberInFront(wide, rest, depth, map[]);
    var more := if rest == [] then [] else [0x2C] + SpellMembers(Tab(rest), 0);
    Ahead(gap, first.lead, LiteralText(first.name), first.gap, [0x3A], first.item.before, Spell(first.item.tree), first.item.after, more);
    NoneBefore(MeanMembers(Tab([wide] + rest), depth, |rest| + 1));
    NoneBefore(MeanMembers(Tab(members), depth, |rest| + 1));
    MeanTable(Tab([wide] + rest), depth);
  }

  lemma WiderOk(one: Member, gap: Text)
    requires MemberOk(one) && Blank(gap)
    ensures MemberOk(one.(lead := gap + one.lead)) && GlyphsOk(one.name)
  {
    BlankConcat(gap, one.lead);
    hide GlyphsMean, WellFormed, Blank;
  }

  lemma Ahead(z: Text, a: Text, b: Text, c: Text, d: Text, e: Text, f: Text, g: Text, h: Text)
    ensures z + a + b + c + d + e + f + g + h == z + (a + b + c + d + e + f + g + h)
  {
  }

  lemma NoneBefore(m: map<Text, Value>)
    ensures map[] + m == m
  {
  }

  lemma RestMembers(members: seq<Member>, depth: nat)
    requires members != [] && Proper(Tab(members), depth)
    ensures Proper(Tab(members[1..]), depth) && MemberOk(members[0])
    ensures forall i: nat :: i < |members| - 1 ==> NameAt(Tab(members[1..]), depth, i) != GlyphsMean(members[0].name)
  {
    hide Blank, GlyphsMean, WellFormed, MemberOk;
    var rest := members[1..];
    forall i | 0 <= i < |members|
      ensures MemberOk(members[i]) && Proper(members[i].item.tree, depth + 1)
    {
      MemberSays(Tab(members), depth, i);
    }
    AllNamed(members);
    assert forall i | 0 <= i < |rest| :: rest[i] == members[i + 1];
    assert forall i, j | 0 <= i < j < |members| :: GlyphsMean(members[i].name) != GlyphsMean(members[j].name);
  }

  lemma TableOf(t: Text, depth: nat) returns (x: Tree)
    requires StartsWith(t, OPEN_BRACE) && depth <= 32
    requires
      var u := SkipSpace(t[1..]);
      StartsWith(u, CLOSE_BRACE) || ParseFields(u, depth, map[]).Ok?
    ensures
      var u := SkipSpace(t[1..]);
      var r := if StartsWith(u, CLOSE_BRACE) then (Obj(map[]), u[1..]) else ParseFields(u, depth, map[]).value;
      Proper(x, depth) && Mean(x, depth) == r.0 && t == Spell(x) + r.1
    decreases |t|, 0, 0
  {
    hide SkipSpace, ParseFields, SpellMembers, Blank;
    var gap := Skipped(t[1..]);
    var u := SkipSpace(t[1..]);
    FirstOff(t);
    if StartsWith(u, CLOSE_BRACE) {
      x := Table(gap, []);
      FirstOff(u);
      assert t == [0x7B] + gap + [0x7D] + u[1..];
    } else {
      var members := MembersOf(u, depth, map[]);
      var r := ParseFields(u, depth, map[]).value;
      x := Tab([members[0].(lead := gap + members[0].lead)] + members[1..]);
      WidenMembers(members, gap, depth);
      NoneBefore(MeanMembers(Tab(members), depth, |members|));
      assert t == [0x7B] + (gap + (SpellMembers(Tab(members), 0) + [0x7D] + r.1));
      assert t == [0x7B] + (gap + SpellMembers(Tab(members), 0)) + [0x7D] + r.1;
    }
  }

  // -------------------------------------------------------------- the whole text

  /** The text is a tree of the grammar with blanks around it, and means v. */
  ghost predicate Spells(t: Text, v: Value) {
    exists gap, x, end :: SpelledBy(t, v, gap, x, end)
  }

  ghost predicate SpelledBy(t: Text, v: Value, gap: Text, x: Tree, end: Text) {
    Blank(gap) && Blank(end) && t == gap + Spell(x) + end && Proper(x, 0) && Mean(x, 0) == v
  }

  /** `parse` returns v exactly on the texts within the bound that spell v. */
  lemma ParsesExactly(t: Text, max: nat, v: Value)
    ensures Parse(t, max) == Ok(v) <==> ByteLen(t) <= max && Spells(t, v)
  {
    hide Spell, Proper, Mean, ParseValue, ByteLen;
    if Parse(t, max) == Ok(v) {
      var gap, x := TreeOf(t, 0);
      var end := ParseValue(t, 0).value.1;
      var blank := Skipped(end);
      assert blank + [] == blank;
      assert SpelledBy(t, v, gap, x, end);
    }
    if ByteLen(t) <= max && Spells(t, v) {
      var gap, x, end :| SpelledBy(t, v, gap, x, end);
      BlankEnds(end, []);
      assert end + [] == end;
      ReadsTree(x, 0, gap, end);
      SkipsBlank(end, []);
    }
  }

  // ------------------------------------------------------------------ what is wrong

  predicate Refusal(code: ErrorCode) {
    code == INVALID_ARGUMENT || code == RESOURCE_EXHAUSTED
  }

  lemma {:induction false} ValueRefused(t: Text, depth: nat)
    requires ParseValue(t, depth).Err?
    ensures Refusal(ParseValue(t, depth).code)
    decreases |t|, 0
  {
    hide ParseString, ParseScalar, ParseItems, ParseFields;
    var u := SkipSpace(t);
    if depth <= MAX_DEPTH {
      if StartsWith(u, QUOTE) {
        LiteralRefused(u);
      } else if StartsWith(u, OPEN_BRACE) {
        var w := SkipSpace(u[1..]);
        if !StartsWith(w, CLOSE_BRACE) { FieldsRefused(w, depth, map[]); }
      } else if StartsWith(u, OPEN_BRACKET) {
        var w := SkipSpace(u[1..]);
        if !StartsWith(w, CLOSE_BRACKET) { ItemsRefused(w, depth, []); }
      } else {
        ScalarRefused(u);
      }
    }
  }

  lemma LiteralRefused(t: Text)
    requires StartsWith(t, QUOTE) && ParseString(t).Err?
    ensures ParseString(t).code == INVALID_ARGUMENT
  {
    hide ScanEnd, Unescape, WellFormed;
  }

  lemma ScalarRefused(t: Text)
    requires ParseScalar(t).Err?
    ensures ParseScalar(t).code == INVALID_ARGUMENT
  {
    hide ParseNumber;
  }

  lemma {:induction false} ItemsRefused(t: Text, depth: nat, done: seq<Value>)
    requires ParseItems(t, depth, done).Err?
    ensures Refusal(ParseItems(t, depth, done).code)
    decreases |t|, 1
  {
    hide ParseValue;
    var item := ParseValue(SkipSpace(t), depth + 1);
    if item.Err? {
      ValueRefused(SkipSpace(t), depth + 1);
    } else {
      var u := SkipSpace(item.value.1);
      if !StartsWith(u, CLOSE_BRACKET) && StartsWith(u, COMMA) {
        ItemsRefused(u[1..], depth, done + [item.value.0]);
      }
    }
  }

  lemma {:induction false} FieldsRefused(t: Text, depth: nat, done: map<Text, Value>)
    requires ParseFields(t, depth, done).Err?
    ensures Refusal(ParseFields(t, depth, done).code)
    decreases |t|, 1
  {
    hide ParseValue, ParseString;
    var u := SkipSpace(t);
    if StartsWith(u, QUOTE) {
      if ParseString(u).Err? {
        LiteralRefused(u);
      } else {
        var key := ParseString(u).value;
        var w := SkipSpace(key.1);
        if IsAscii(key.0) && key.0 !in done && StartsWith(w, COLON) {
          if ParseValue(w[1..], depth + 1).Err? {
            ValueRefused(w[1..], depth + 1);
          } else {
            var item := ParseValue(w[1..], depth + 1).value;
            var z := SkipSpace(item.1);
            if !StartsWith(z, CLOSE_BRACE) && StartsWith(z, COMMA) {
              FieldsRefused(z[1..], depth, done[key.0 := item.0]);
            }
          }
        }
      }
    }
  }

  /** What does not spell a value is refused as malformed or as too much; a text beyond
      the bound always as too much. */
  lemma ParseRefuses(t: Text, max: nat)
    requires Parse(t, max).Err?
    ensures Parse(t, max).code == INVALID_ARGUMENT || Parse(t, max).code == RESOURCE_EXHAUSTED
    ensures ByteLen(t) > max ==> Parse(t, max).code == RESOURCE_EXHAUSTED
  {
    hide ParseValue, ByteLen;
    if ByteLen(t) <= max && ParseValue(t, 0).Err? {
      ValueRefused(t, 0);
    }
  }
}
