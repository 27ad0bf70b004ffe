/** Type strings of data classes: printed from objects, parsed back to the classes. */
module TypeStrings {
  import opened Common

  /** A class is found by its dotted name: package, module and class name. */
  datatype Class = Class(path: seq<string>)

  /** What a type string is made from: one object, or a list of objects, by their classes. */
  datatype Value = One(cls: Class) | Many(classes: seq<Class>)

  datatype Parsed = Types(isList: bool, classes: seq<Class>) | TypeError

  const PACKAGE := "robcoewmtypes"

  /* ---------- Splitting, joining and stripping ---------- */

  function Split(s: string, c: char): (r: seq<string>)
    ensures |r| >= 1
  {
    if s == "" then [""]
    else
      var rest := Split(s[1..], c);
      if s[0] == c then [""] + rest else [[s[0]] + rest[0]] + rest[1..]
  }

  function Join(parts: seq<string>, c: char): string {
    if parts == [] then "" else if |parts| == 1 then parts[0] else parts[0] + [c] + Join(parts[1..], c)
  }

  lemma {:induction false} SplitWhole(a: string, c: char)
    requires c !in a
    ensures Split(a, c) == [a]
  {
    if a != "" {
      SplitWhole(a[1..], c);
      assert a == [a[0]] + a[1..];
    }
  }

  lemma {:induction false} SplitFirst(a: string, b: string, c: char)
    requires c !in a
    ensures Split(a + [c] + b, c) == [a] + Split(b, c)
  {
    if a == "" {
      assert ([c] + b)[1..] == b && a + [c] + b == [c] + b;
    } else {
      SplitFirst(a[1..], b, c);
      assert (a + [c] + b)[1..] == a[1..] + [c] + b;
      assert [a[0]] + a[1..] == a;
    }
  }

  lemma {:induction false} SplitJoin(parts: seq<string>, c: char)
    requires parts != [] && forall i :: 0 <= i < |parts| ==> c !in parts[i]
    ensures Split(Join(parts, c), c) == parts
  {
    if |parts| == 1 {
      SplitWhole(parts[0], c);
    } else {
      SplitJoin(parts[1..], c);
      SplitFirst(parts[0], Join(parts[1..], c), c);
    }
  }

  predicate Space(c: char) {
    c in " \t\n\r"
  }

  predicate Bracket(c: char) {
    c == ']'
  }

  function StripLeft(s: string, f: char -> bool): string {
    if s != "" && f(s[0]) then StripLeft(s[1..], f) else s
  }

  function StripRight(s: string, f: char -> bool): string {
    if s != "" && f(s[|s| - 1]) then StripRight(s[..|s| - 1], f) else s
  }

  function Strip(s: string, f: char -> bool): string {
    StripRight(StripLeft(s, f), f)
  }

  /* ---------- Printing ---------- */

  /** The classes in the order of their first occurrence. */
  function Distinct(classes: seq<Class>): (r: seq<Class>)
    ensures forall c :: c in r <==> c in classes
    ensures NoDuplicates(r)
  {
    if classes == [] then [] else
      var init, last := classes[..|classes| - 1], classes[|classes| - 1];
      assert classes == init + [last];
      Distinct(init) + if last in Distinct(init) then [] else [last]
  }

  /** The first occurrences of the classes are in the order of the result. */
  lemma {:induction false} FirstOccurrences(classes: seq<Class>, i: nat, j: nat) returns (k: nat, l: nat)
    requires i < j < |Distinct(classes)|
    ensures k < l < |classes| && classes[k] == Distinct(classes)[i] && classes[l] == Distinct(classes)[j]
    ensures Distinct(classes)[j] !in classes[..l]
  {
    var init := classes[..|classes| - 1];
    if j < |Distinct(init)| {
      k, l := FirstOccurrences(init, i, j);
      assert init[..l] == classes[..l];
    } else {
      l := |classes| - 1;
      assert Distinct(classes)[i] in Distinct(init);
      k :| 0 <= k < |init| && init[k] == Distinct(classes)[i];
    }
  }

  function ClassName(c: Class): string {
    Join(c.path, '.')
  }

  function Names(classes: seq<Class>): (r: seq<string>)
    ensures |r| == |classes| && forall i :: 0 <= i < |r| ==> r[i] == ClassName(classes[i])
  {
    seq(|classes|, i requires 0 <= i < |classes| => ClassName(classes[i]))
  }

  function Listed(classes: seq<Class>): string {
    if |classes| == 1 then "List[" + ClassName(classes[0]) + "]"
    else "List[Union[" + Join(Names(classes), ',') + "]]"
  }

  /** Only classes with attributes can be printed. */
  function Print(v: Value, known: set<Class>): Option<string> {
    match v
    case One(c) => if c in known then Some(ClassName(c)) else None
    case Many(classes) => if forall c :: c in classes ==> c in known then Some(Listed(Distinct(classes))) else None
  }

  method CreateRobcoewmtypeStr(v: Value, known: set<Class>) returns (r: Option<string>)
    ensures r == Print(v, known)
  {
    match v {
      case One(c) =>
        if c !in known {
          return None;
        }
        r := Some(ClassName(c));
      case Many(classes) =>
        var clslist: seq<Class> := [];
        for i := 0 to |classes|
          invariant clslist == Distinct(classes[..i]) && forall k :: 0 <= k < i ==> classes[k] in known
        {
          assert classes[..i + 1][..i] == classes[..i];
          if classes[i] !in clslist {
            if classes[i] !in known {
              return None;
            }
            clslist := clslist + [classes[i]];
          }
        }
        assert classes[..|classes|] == classes;
        r := Some(Listed(clslist));
    }
  }

  /* ---------- Parsing ---------- */

  /** The class names of a comma-separated list, each of which has to be a known class. */
  function ParseClasses(names: seq<string>, known: set<Class>): Option<seq<Class>> {
    if names == [] then Some([])
    else
      var init := ParseClasses(names[..|names| - 1], known);
      var c := Class(Split(names[|names| - 1], '.'));
      if init.None? || c.path[0] != PACKAGE || c !in known then None else Some(init.value + [c])
  }

  /** The classes of a type string and whether they are wrapped in a list and a union. */
  function Checked(classes: string, isList: bool, isUnion: bool, known: set<Class>): Parsed {
    var parsed := ParseClasses(Split(classes, ','), known);
    if parsed.None? || (|parsed.value| > 1 && !isUnion) then TypeError else Types(isList, parsed.value)
  }

  function Parse(s: string, known: set<Class>): Parsed {
    var lines := Split(s, '[');
    var isList := lines[0] == "List";
    if |lines| == 1 then
      if isList then TypeError else Checked(Strip(lines[0], Space), false, false, known)
    else
      var isUnion := lines[1] == "Union";
      if isUnion && !isList then TypeError
      else if |lines| == 2 then
        if isUnion then TypeError else Checked(Strip(Strip(lines[1], Bracket), Space), isList, false, known)
      else if |lines| > 3 || !isList || !isUnion then TypeError
      else Checked(Strip(Strip(lines[2], Bracket), Space), true, true, known)
  }

  method ParseClassList(names: seq<string>, known: set<Class>) returns (r: Option<seq<Class>>)
    ensures r == ParseClasses(names, known)
  {
    var objlist: seq<Class> := [];
    for i := 0 to |names|
      invariant Some(objlist) == ParseClasses(names[..i], known)
    {
      assert names[..i + 1][..i] == names[..i];
      var c := Class(Split(names[i], '.'));
      if c.path[0] != PACKAGE || c !in known {
        NoneStays(names, known, i + 1);
        return None;
      }
      objlist := objlist + [c];
    }
    assert names[..|names|] == names;
    r := Some(objlist);
  }

  lemma {:induction false} NoneStays(names: seq<string>, known: set<Class>, i: nat)
    requires i <= |names| && ParseClasses(names[..i], known).None?
    ensures ParseClasses(names, known).None?
    decreases |names| - i
  {
    if i == |names| {
      assert names[..i] == names;
    } else {
      assert names[..i + 1][..i] == names[..i];
      NoneStays(names, known, i + 1);
    }
  }

  /** Line after line between the opening brackets: the list, the union, the classes. */
  method GetRobcoewmtype(s: string, known: set<Class>) returns (r: Parsed)
    ensures r == Parse(s, known)
  {
    var lines := Split(s, '[');
    var isList, isUnion := false, false;
    var classes: Option<string> := None;
    for i := 0 to |lines|
      invariant i >= 1 ==> isList == (lines[0] == "List")
      invariant isUnion == (i >= 2 && lines[1] == "Union") && (isUnion ==> isList)
      invariant i <= 3
      invariant i == 3 ==> isList && isUnion
      invariant classes == if i == 0 then None
                           else if i == 1 then (if isList then None else Some(Strip(lines[0], Space)))
                           else if i == 2 then (if isUnion then None else Some(Strip(Strip(lines[1], Bracket), Space)))
                           else Some(Strip(Strip(lines[2], Bracket), Space))
    {
      if i == 0 {
        isList := lines[0] == "List";
        classes := if isList then None else Some(Strip(lines[0], Space));
      } else if i == 1 {
        if lines[1] == "Union" {
          if !isList {
            return TypeError;
          }
          isUnion := true;
        } else {
          classes := Some(Strip(Strip(lines[1], Bracket), Space));
        }
      } else if i == 2 {
        if !isList || !isUnion {
          return TypeError;
        }
        classes := Some(Strip(Strip(lines[2], Bracket), Space));
      } else {
        return TypeError;
      }
    }
    if classes.None? {
      return TypeError;
    }
    var objlist := ParseClassList(Split(classes.value, ','), known);
    if objlist.None? || (|objlist.value| > 1 && !isUnion) {
      return TypeError;
    }
    r := Types(isList, objlist.value);
  }

  /* ---------- Round trip ---------- */

  predicate PlainName(s: string) {
    s != "" && forall c :: c in s ==> c !in ".,[]" && !Space(c)
  }

  /** The class is found under its own name, whose parts are free of brackets, commas and blanks. */
  predicate Proper(c: Class) {
    c.path != [] && c.path[0] == PACKAGE && forall i :: 0 <= i < |c.path| ==> PlainName(c.path[i])
  }

  /** Neither brackets, commas nor blanks. */
  predicate Clean(s: string) {
    forall c :: c in s ==> c !in ",[]" && !Space(c)
  }

  lemma {:induction false} JoinClean(parts: seq<string>)
    requires parts != [] && forall i :: 0 <= i < |parts| ==> PlainName(parts[i])
    ensures Clean(Join(parts, '.')) && Join(parts, '.') != ""
  {
    if |parts| > 1 {
      JoinClean(parts[1..]);
    }
  }

  lemma NameIsClean(c: Class)
    requires Proper(c)
    ensures Clean(ClassName(c)) && ClassName(c) != "" && Split(ClassName(c), '.') == c.path
  {
    JoinClean(c.path);
    SplitJoin(c.path, '.');
  }

  lemma NameParses(names: seq<string>, c: Class, known: set<Class>, init: seq<Class>)
    requires Proper(c) && c in known && names != [] && names[|names| - 1] == ClassName(c)
    requires ParseClasses(names[..|names| - 1], known) == Some(init)
    ensures ParseClasses(names, known) == Some(init + [c])
  {
    NameIsClean(c);
    assert Class(Split(names[|names| - 1], '.')) == c;
  }

  lemma {:induction false} NamesParse(names: seq<string>, classes: seq<Class>, known: set<Class>)
    requires forall c :: c in classes ==> Proper(c) && c in known
    requires |names| == |classes| && forall i :: 0 <= i < |names| ==> names[i] == ClassName(classes[i])
    ensures ParseClasses(names, known) == Some(classes)
  {
    if classes != [] {
      var init, last := classes[..|classes| - 1], classes[|classes| - 1];
      assert classes == init + [last];
      NamesParse(names[..|names| - 1], init, known);
      NameParses(names, last, known, init);
    }
  }

  lemma {:induction false} JoinedNames(names: seq<string>)
    requires names != [] && forall i :: 0 <= i < |names| ==> Clean(names[i]) && names[i] != ""
    ensures var s := Join(names, ','); s != "" && s[0] == names[0][0] && !Space(s[0]) && !Bracket(s[0]) && '[' !in s
    ensures var s := Join(names, ','); !Space(s[|s| - 1]) && !Bracket(s[|s| - 1])
  {
    assert names[0][0] in names[0];
    if |names| == 1 {
      assert names[0][|names[0]| - 1] in names[0];
    } else {
      JoinedNames(names[1..]);
    }
  }

  lemma StripBrackets(s: string)
    requires s != "" && !Bracket(s[0]) && !Bracket(s[|s| - 1]) && !Space(s[0]) && !Space(s[|s| - 1])
    ensures Strip(s, Bracket) == s && Strip(s + "]", Bracket) == s && Strip(s + "]]", Bracket) == s
    ensures Strip(s, Space) == s
  {
    assert (s + "]")[..|s|] == s;
    assert (s + "]]")[..|s| + 1] == s + "]";
  }

  lemma ListLines(inner: string)
    requires '[' !in inner
    ensures Split("List[" + inner, '[') == ["List", inner]
    ensures Split("List[Union[" + inner, '[') == ["List", "Union", inner]
  {
    SplitWhole(inner, '[');
    SplitHead("List", "List[", inner);
    SplitHead("Union", "Union[", inner);
    assert "List[Union[" + inner == "List[" + ("Union[" + inner);
    SplitHead("List", "List[", "Union[" + inner);
  }

  lemma SplitHead(a: string, head: string, b: string)
    requires '[' !in a && head == a + ['[']
    ensures Split(head + b, '[') == [a] + Split(b, '[')
  {
    SplitFirst(a, b, '[');
  }

  lemma PackageFirst(c: Class)
    requires Proper(c)
    ensures ClassName(c)[0] == 'r' && ClassName(c) != "List"
  {
  }

  lemma OneRoundTrip(c: Class, known: set<Class>)
    requires Proper(c) && c in known
    ensures Parse(ClassName(c), known) == Types(false, [c])
  {
    NameIsClean(c);
    PackageFirst(c);
    var s := ClassName(c);
    SplitWhole(s, '[');
    assert s[0] in s && s[|s| - 1] in s;
    StripBrackets(s);
    SplitWhole(s, ',');
    NamesParse([s], [c], known);
  }

  /** The joined class names are free of what surrounds them, and are taken apart again. */
  lemma InnerRoundTrip(classes: seq<Class>, known: set<Class>)
    requires classes != [] && forall c :: c in classes ==> Proper(c) && c in known
    ensures var s := Join(Names(classes), ',');
      && s != "" && !Bracket(s[0]) && !Bracket(s[|s| - 1]) && !Space(s[0]) && !Space(s[|s| - 1]) && '[' !in s
      && ParseClasses(Split(s, ','), known) == Some(classes)
  {
    var names := Names(classes);
    forall i | 0 <= i < |names| ensures Clean(names[i]) && names[i] != "" && ',' !in names[i] {
      assert classes[i] in classes;
      NameIsClean(classes[i]);
    }
    JoinedNames(names);
    SplitJoin(names, ',');
    NamesParse(names, classes, known);
  }

  lemma NotUnion(c: Class)
    requires Proper(c)
    ensures ClassName(c) + "]" != "Union"
  {
  }

  lemma ListParses(s: string, inner: string, known: set<Class>)
    requires Split(s, '[') == ["List", inner] && inner != "Union"
    ensures Parse(s, known) == Checked(Strip(Strip(inner, Bracket), Space), true, false, known)
  {
  }

  lemma UnionParses(s: string, inner: string, known: set<Class>)
    requires Split(s, '[') == ["List", "Union", inner]
    ensures Parse(s, known) == Checked(Strip(Strip(inner, Bracket), Space), true, true, known)
  {
  }

  lemma SingleList(c: Class, known: set<Class>)
    requires Proper(c) && c in known
    ensures Parse("List[" + ClassName(c) + "]", known) == Types(true, [c])
  {
    var s := ClassName(c);
    InnerRoundTrip([c], known);
    assert Names([c]) == [s] && Join([s], ',') == s;
    StripBrackets(s);
    NotUnion(c);
    ListLines(s + "]");
    assert "List[" + s + "]" == "List[" + (s + "]");
    ListParses("List[" + s + "]", s + "]", known);
  }

  lemma UnionList(classes: seq<Class>, known: set<Class>)
    requires classes != [] && forall c :: c in classes ==> Proper(c) && c in known
    ensures Parse("List[Union[" + Join(Names(classes), ',') + "]]", known) == Types(true, classes)
  {
    var s := Join(Names(classes), ',');
    InnerRoundTrip(classes, known);
    StripBrackets(s);
    ListLines(s + "]]");
    assert "List[Union[" + s + "]]" == "List[Union[" + (s + "]]");
    UnionParses("List[Union[" + s + "]]", s + "]]", known);
  }

  lemma ManyRoundTrip(classes: seq<Class>, known: set<Class>)
    requires classes != [] && forall c :: c in classes ==> Proper(c) && c in known
    ensures Parse(Listed(classes), known) == Types(true, classes)
  {
    if |classes| == 1 {
      assert classes == [classes[0]];
      SingleList(classes[0], known);
    } else {
      UnionList(classes, known);
    }
  }

  /** Printing and parsing yield whether it was a list, and its classes in the order of first occurrence. */
  lemma RoundTrip(v: Value, known: set<Class>)
    requires v.One? ==> Proper(v.cls) && v.cls in known
    requires v.Many? ==> v.classes != [] && forall c :: c in v.classes ==> Proper(c) && c in known
    ensures Print(v, known).Some?
    ensures Parse(Print(v, known).value, known) ==
            if v.One? then Types(false, [v.cls]) else Types(true, Distinct(v.classes))
  {
    match v
    case One(c) => OneRoundTrip(c, known);
    case Many(classes) =>
      assert classes[0] in Distinct(classes);
      ManyRoundTrip(Distinct(classes), known);
  }

  lemma NothingNamed(known: set<Class>)
    ensures ParseClasses(Split("", ','), known) == None
  {
  }

  lemma OnlyBrackets()
    ensures Strip("]]", Bracket) == "" && Strip("", Space) == ""
  {
  }

  /** The type string of an empty list cannot be parsed. */
  lemma EmptyListFails(known: set<Class>)
    ensures Print(Many([]), known) == Some(Listed([])) && Parse(Listed([]), known) == TypeError
  {
    ListLines("]]");
    OnlyBrackets();
    NothingNamed(known);
    assert Listed([]) == "List[Union[" + "]]";
  }

  /* ---------- What is parsed ---------- */

  lemma {:induction false} JoinSplit(s: string, c: char)
    ensures Join(Split(s, c), c) == s
  {
    if s != "" {
      var rest := Split(s[1..], c);
      JoinSplit(s[1..], c);
      assert s == [s[0]] + s[1..];
      if s[0] == c {
        assert ([""] + rest)[1..] == rest;
      } else {
        assert ([[s[0]] + rest[0]] + rest[1..])[1..] == rest[1..];
      }
    }
  }

  /** Every parsed class is known, and has the name that was parsed. */
  lemma {:induction false} ParsedNames(names: seq<string>, known: set<Class>)
    requires ParseClasses(names, known).Some?
    ensures var classes := ParseClasses(names, known).value;
      && Names(classes) == names && forall c :: c in classes ==> c in known && c.path != [] && c.path[0] == PACKAGE
  {
    if names != [] {
      ParsedNames(names[..|names| - 1], known);
      JoinSplit(names[|names| - 1], '.');
    }
  }

  /** A part of a string. */
  ghost predicate Inside(part: string, s: string) {
    exists i, j :: 0 <= i <= j <= |s| && s[i..j] == part
  }

  lemma InsideTransitive(a: string, b: string, c: string)
    requires Inside(a, b) && Inside(b, c)
    ensures Inside(a, c)
  {
    var i, j :| 0 <= i <= j <= |b| && b[i..j] == a;
    var k, l :| 0 <= k <= l <= |c| && c[k..l] == b;
    var part := c[k + i..k + j];
    assert |part| == |a| && forall x :: 0 <= x < |a| ==> part[x] == b[i + x] == a[x];
  }

  lemma {:induction false} StripInside(s: string, f: char -> bool)
    ensures Inside(Strip(s, f), s)
  {
    LeftInside(s, f);
    RightInside(StripLeft(s, f), f);
    InsideTransitive(Strip(s, f), StripLeft(s, f), s);
  }

  lemma {:induction false} LeftInside(s: string, f: char -> bool)
    ensures Inside(StripLeft(s, f), s)
  {
    if s != "" && f(s[0]) {
      LeftInside(s[1..], f);
      assert s[1..|s|] == s[1..];
      InsideTransitive(StripLeft(s, f), s[1..], s);
    } else {
      assert s[0..|s|] == s;
    }
  }

  lemma {:induction false} RightInside(s: string, f: char -> bool)
    ensures Inside(StripRight(s, f), s)
  {
    if s != "" && f(s[|s| - 1]) {
      RightInside(s[..|s| - 1], f);
      assert s[0..|s| - 1] == s[..|s| - 1];
      InsideTransitive(StripRight(s, f), s[..|s| - 1], s);
    } else {
      assert s[0..|s|] == s;
    }
  }

  lemma CheckedIs(classes: string, isList: bool, isUnion: bool, known: set<Class>)
    requires Checked(classes, isList, isUnion, known).Types?
    ensures var r := Checked(classes, isList, isUnion, known);
      && r.isList == isList && (|r.classes| > 1 ==> isUnion) && r.classes != []
      && Join(Names(r.classes), ',') == classes
      && forall c :: c in r.classes ==> c in known && c.path != [] && c.path[0] == PACKAGE
  {
    ParsedNames(Split(classes, ','), known);
    JoinSplit(classes, ',');
  }

  /** A string is a list by its first line, and a union by its second one. */
  lemma ListFirst(s: string)
    ensures var lines := Split(s, '[');
      && (|lines| >= 2 && lines[0] == "List" <==> "List[" <= s)
      && (|lines| >= 3 && lines[0] == "List" && lines[1] == "Union" ==> "List[Union[" <= s)
  {
    var lines := Split(s, '[');
    JoinSplit(s, '[');
    if "List[" <= s {
      SplitHead("List", "List[", s[5..]);
      assert s == "List[" + s[5..];
    }
    if |lines| >= 2 && lines[0] == "List" {
      assert s == "List" + ['['] + Join(lines[1..], '[');
      if |lines| >= 3 && lines[1] == "Union" {
        assert Join(lines[1..], '[') == "Union" + ['['] + Join(lines[1..][1..], '[');
        assert s[..11] == "List[Union[";
      }
    }
  }

  lemma {:induction false} PartInside(parts: seq<string>, c: char, i: nat)
    requires i < |parts|
    ensures Inside(parts[i], Join(parts, c))
  {
    var s := Join(parts, c);
    if i == 0 {
      assert s[0..|parts[0]|] == parts[0];
    } else {
      PartInside(parts[1..], c, i - 1);
      assert s[|parts[0]| + 1..|s|] == Join(parts[1..], c);
      InsideTransitive(parts[i], Join(parts[1..], c), s);
    }
  }

  /** The classes are looked for in one of the lines, without brackets and blanks around them. */
  lemma ParsedLine(s: string, known: set<Class>) returns (i: nat, classes: string)
    requires Parse(s, known).Types?
    ensures i < |Split(s, '[')| && (classes == Strip(Split(s, '[')[i], Space)
                                    || classes == Strip(Strip(Split(s, '[')[i], Bracket), Space))
    ensures var lines := Split(s, '[');
      Parse(s, known) == Checked(classes, |lines| >= 2 && lines[0] == "List",
                                 |lines| >= 3 && lines[0] == "List" && lines[1] == "Union", known)
  {
    var lines := Split(s, '[');
    i := |lines| - 1;
    classes := if i == 0 then Strip(lines[0], Space) else Strip(Strip(lines[i], Bracket), Space);
  }

  /**
   * Whatever string is parsed successfully names its classes, separated by commas, in their order;
   * all of them are known ones of the package. A list begins with its keyword, and several classes
   * need the union as well.
   */
  lemma ParsedIsNamed(s: string, known: set<Class>)
    requires Parse(s, known).Types?
    ensures var r := Parse(s, known);
      && Inside(Join(Names(r.classes), ','), s) && r.classes != []
      && (forall c :: c in r.classes ==> c in known && c.path != [] && c.path[0] == PACKAGE)
      && (r.isList <==> "List[" <= s) && (|r.classes| > 1 ==> "List[Union[" <= s)
  {
    var lines := Split(s, '[');
    var i, classes := ParsedLine(s, known);
    ListFirst(s);
    CheckedIs(classes, |lines| >= 2 && lines[0] == "List",
              |lines| >= 3 && lines[0] == "List" && lines[1] == "Union", known);
    LineInside(s, i, classes);
  }

  lemma LineInside(s: string, i: nat, part: string)
    requires i < |Split(s, '[')|
    requires part in {Strip(Split(s, '[')[i], Space), Strip(Strip(Split(s, '[')[i], Bracket), Space)}
    ensures Inside(part, s)
  {
    var line := Split(s, '[')[i];
    JoinSplit(s, '[');
    PartInside(Split(s, '['), '[', i);
    if part == Strip(line, Space) {
      StripInside(line, Space);
    } else {
      StripInside(line, Bracket);
      StripInside(Strip(line, Bracket), Space);
      InsideTransitive(part, Strip(line, Bracket), line);
    }
    InsideTransitive(part, line, s);
  }
}
