// src/obj.rs: what a maze cell holds.
module Objs {
  datatype Obj = Space | Wall | Deer

  predicate IsObjChar(c: char) { c == '.' || c == '#' || c == 'd' }

  // Panics on any other character.
  function FromChar(c: char): (o: Obj)
    requires IsObjChar(c)
    ensures o == Wall <==> c == '#'
  {
    match c
    case '.' => Space
    case '#' => Wall
    case 'd' => Deer
  }

  function ToChar(o: Obj): (c: char)
    ensures IsObjChar(c)
    ensures c == '#' <==> o == Wall
  {
    match o
    case Space => '.'
    case Wall => '#'
    case Deer => 'd'
  }

  lemma CharRoundTrips(c: char, o: Obj)
    ensures IsObjChar(c) ==> ToChar(FromChar(c)) == c
    ensures FromChar(ToChar(o)) == o
  {
  }
}
