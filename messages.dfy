/** Who reports the work, and what the report says. The dialogue manager's
    templates stay symbolic: a report is the sequence of pieces the sitter
    asks for, before the manager fills in their placeholders. */
module Messages {
  import opened Stats

  /** ASCII lower-casing, standing for C#'s ToLower. */
  function LowerChar(c: char): char
  {
    if 'A' <= c <= 'Z' then (c as int + 32) as char else c
  }

  function Lower(s: string): (r: string)
    ensures |r| == |s|
  {
    seq(|s|, i requires 0 <= i < |s| => LowerChar(s[i]))
  }

  /** Whether the configured checker names `role`, whatever the case. */
  predicate Names(checker: string, role: string)
  {
    Lower(checker) == role
  }

  /** GetGathererName: the spouse's name when the checker is the spouse and
      the player is married, a stock name when the checker is the spouse and
      there is none, and otherwise the checker as configured. */
  function GathererName(checker: string, married: bool, spouseName: string): (r: string)
    ensures Names(checker, "spouse") && married ==> r == spouseName
    ensures Names(checker, "spouse") && !married ==> r == "The animal sitter"
    ensures !Names(checker, "spouse") ==> r == checker
  {
    if Names(checker, "spouse") then (if married then spouseName else "The animal sitter")
    else checker
  }

  /** A message the dialogue manager supplies: the Xdialog entry at an index,
      or a random entry of a category. */
  datatype Template = Xdialog(index: nat) | RandomOf(category: string)

  /** A piece of a report: literal text, or a template whose placeholders are
      filled from the statistics. */
  datatype Piece = Literal(text: string) | Filled(template: Template)

  /** Where a report appears: a HUD message, or a dialogue spoken by a
      character. */
  datatype Channel = Hud | DialogueOf(speaker: string)

  /** A report as shown, with the statistics its placeholders are filled
      from. */
  datatype Report = Report(channel: Channel, pieces: seq<Piece>, stats: Tasks)

  /** What ShowMessage reads: the checker, the player's household, whether a
      character of the checker's name exists, and the charge. */
  datatype Context = Context(
    checker: string,
    hasPet: bool,
    catPerson: bool,
    married: bool,
    characterFound: bool,
    costPerAnimal: int,
    totalCost: int,
    enoughCash: bool,
    gatheringOnly: bool)

  /** The report chosen, and whether the count of days short of pay is
      reset. */
  datatype Selection = Selection(channel: Channel, pieces: seq<Piece>, resetShortDays: bool)

  const PetNone := "Your imaginary pet has taken care of your animals."

  /** The branch in which a character speaks the report. */
  predicate CharacterSpeaks(ctx: Context)
  {
    !Names(ctx.checker, "pet") && !Names(ctx.checker, "spouse") && !ctx.gatheringOnly && ctx.characterFound
  }

  /** The two branches that append the payment addendum when money was
      charged. */
  predicate MayBill(ctx: Context)
  {
    !Names(ctx.checker, "pet") && (Names(ctx.checker, "spouse") || ctx.gatheringOnly)
  }

  function Addendum(ctx: Context): seq<Piece>
  {
    if ctx.totalCost > 0 && ctx.costPerAnimal > 0 then [Filled(Xdialog(3))] else []
  }

  function Portrait(checker: string): string
  {
    if checker == "Shane" then "$8" else ""
  }

  /** ShowMessage's decision table: pet, then spouse, then gathering only,
      then a character of the checker's name, then the fallback. */
  function Select(ctx: Context): (sel: Selection)
    ensures |sel.pieces| > 0
    // the pet answers with one of three fixed lines on the HUD
    ensures Names(ctx.checker, "pet") ==>
      sel.channel == Hud && |sel.pieces| == 1 && sel.pieces[0].Literal? &&
      (sel.pieces[0].text == "Meow.." <==> ctx.hasPet && ctx.catPerson) &&
      (sel.pieces[0].text == "Woof." <==> ctx.hasPet && !ctx.catPerson) &&
      (sel.pieces[0].text == PetNone <==> !ctx.hasPet)
    // only a character speaks, and it speaks in its own name
    ensures sel.channel.DialogueOf? <==> CharacterSpeaks(ctx)
    ensures sel.channel.DialogueOf? ==> sel.channel.speaker == ctx.checker
    ensures CharacterSpeaks(ctx) ==>
      |sel.pieces| >= 4 && sel.pieces[..2] == [Filled(RandomOf("greeting")), Filled(Xdialog(5))] &&
      sel.pieces[|sel.pieces| - 1] == Literal(Portrait(ctx.checker) + "#$e#")
    // the count of days short of pay is reset only after a paid visit
    ensures sel.resetShortDays <==> CharacterSpeaks(ctx) && ctx.costPerAnimal > 0 && ctx.enoughCash
  {
    if Names(ctx.checker, "pet") then
      var line := if ctx.hasPet then (if ctx.catPerson then "Meow.." else "Woof.") else PetNone;
      Selection(Hud, [Literal(line)], false)
    else if Names(ctx.checker, "spouse") then
      Selection(Hud, [Filled(Xdialog(if ctx.married then 1 else 2))] + Addendum(ctx), false)
    else if ctx.gatheringOnly then
      Selection(Hud, [Filled(Xdialog(4))] + Addendum(ctx), false)
    else if ctx.characterFound then
      Selection(DialogueOf(ctx.checker), Spoken(ctx), ctx.costPerAnimal > 0 && ctx.enoughCash)
    else
      Selection(Hud, [Filled(Xdialog(7))], false)
  }

  /** What a character says: a greeting, the thanks, the word about money
      when a cost is configured, small talk, and the closing portrait. */
  function Spoken(ctx: Context): seq<Piece>
  {
    var money := if ctx.costPerAnimal > 0 then
                   [Filled(if ctx.enoughCash then Xdialog(6) else RandomOf("unfinishedmoney"))]
                 else [];
    [Filled(RandomOf("greeting")), Filled(Xdialog(5))] + money +
    [Filled(RandomOf("smalltalk")), Literal(Portrait(ctx.checker) + "#$e#")]
  }

  /** Each branch other than the pet's opens with its own line. */
  lemma SelectOpensEachBranch(ctx: Context)
    ensures var sel := Select(ctx);
      (Filled(Xdialog(1)) in sel.pieces <==> !Names(ctx.checker, "pet") && Names(ctx.checker, "spouse") && ctx.married) &&
      (Filled(Xdialog(2)) in sel.pieces <==> !Names(ctx.checker, "pet") && Names(ctx.checker, "spouse") && !ctx.married) &&
      (Filled(Xdialog(4)) in sel.pieces <==> MayBill(ctx) && !Names(ctx.checker, "spouse")) &&
      (Filled(Xdialog(7)) in sel.pieces <==>
        !Names(ctx.checker, "pet") && !Names(ctx.checker, "spouse") && !ctx.gatheringOnly && !ctx.characterFound)
  {
    var sel := Select(ctx);
    if CharacterSpeaks(ctx) {
      SpokenPieces(ctx);
    }
  }

  /** The payment addendum follows the spouse's and the gatherer's lines when
      money was charged; a character thanks the player for a paid visit and
      complains about an unpaid one. */
  lemma SelectTalksMoney(ctx: Context)
    ensures var sel := Select(ctx);
      (Filled(Xdialog(3)) in sel.pieces <==> MayBill(ctx) && ctx.totalCost > 0 && ctx.costPerAnimal > 0) &&
      (Filled(Xdialog(6)) in sel.pieces <==> CharacterSpeaks(ctx) && ctx.costPerAnimal > 0 && ctx.enoughCash) &&
      (Filled(RandomOf("unfinishedmoney")) in sel.pieces <==>
        CharacterSpeaks(ctx) && ctx.costPerAnimal > 0 && !ctx.enoughCash)
  {
    var sel := Select(ctx);
    if CharacterSpeaks(ctx) {
      SpokenPieces(ctx);
    }
  }

  /** Membership in a character's lines, piece by piece. */
  lemma SpokenPieces(ctx: Context)
    ensures forall x :: x in Spoken(ctx) <==>
      x == Filled(RandomOf("greeting")) || x == Filled(Xdialog(5)) ||
      (ctx.costPerAnimal > 0 && ctx.enoughCash && x == Filled(Xdialog(6))) ||
      (ctx.costPerAnimal > 0 && !ctx.enoughCash && x == Filled(RandomOf("unfinishedmoney"))) ||
      x == Filled(RandomOf("smalltalk")) || x == Literal(Portrait(ctx.checker) + "#$e#")
  {
  }
}
