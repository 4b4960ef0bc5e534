/**
 * Text the agents feed to the language model: the one-line rendering of a holding,
 * the quantity filters over the account's holdings, and the block of earlier reports
 * (joined by `\n---\n`, or a fixed placeholder when there are none).
 */
module AgentContext {
  import Text
  import Models

  /** The separator between the reports of one block. */
  const ReportSeparator := "\n---\n"

  /** One holding: `- code (name): qty=.., avg_cost=.., cur_price=.., pnl=.. (..%)`. */
  function HoldingLine(item: Models.BalanceItem): string
  {
    "- " + item.pdno + " (" + item.prdt_name + "): qty=" + item.hldg_qty + ", avg_cost=" + item.pchs_avg_pric
    + ", cur_price=" + item.prpr + ", pnl=" + item.evlu_pfls_amt + " (" + item.evlu_pfls_rt + "%)"
  }

  /** `int(item.hldg_qty)` succeeds. */
  predicate QtyParses(item: Models.BalanceItem)
  {
    Text.ParseInt(item.hldg_qty).Some?
  }

  /** `int(item.hldg_qty)` succeeds for every holding; otherwise the conversion raises. */
  predicate QuantitiesParse(items: seq<Models.BalanceItem>)
    decreases |items|
  {
    items == [] || (QuantitiesParse(items[..|items| - 1]) && QtyParses(items[|items| - 1]))
  }

  lemma {:induction false} QuantityParsesAt(items: seq<Models.BalanceItem>, i: nat)
    requires QuantitiesParse(items) && i < |items|
    ensures QtyParses(items[i])
    decreases |items|
  {
    if i < |items| - 1 {
      QuantityParsesAt(items[..|items| - 1], i);
    }
  }

  /** The quantity of a holding whose `hldg_qty` converts. */
  function Qty(item: Models.BalanceItem): int
  {
    Text.ParseInt(item.hldg_qty).GetOr(0)
  }

  /** The holdings that pass `keep`, in their original order. */
  function Kept(items: seq<Models.BalanceItem>, keep: Models.BalanceItem -> bool): (r: seq<Models.BalanceItem>)
    ensures |r| <= |items|
  {
    if items == [] then []
    else
      var last := items[|items| - 1];
      Kept(items[..|items| - 1], keep) + (if keep(last) then [last] else [])
  }

  /** A holding is kept exactly when it is one of the holdings and passes `keep`. */
  lemma {:induction false} KeptMembers(items: seq<Models.BalanceItem>, keep: Models.BalanceItem -> bool, x: Models.BalanceItem)
    ensures x in Kept(items, keep) <==> x in items && keep(x)
    decreases |items|
  {
    if items != [] {
      var init, last := items[..|items| - 1], items[|items| - 1];
      KeptMembers(init, keep, x);
      assert items == init + [last];
      assert x in items <==> x in init || x == last;
      if keep(last) {
        assert Kept(items, keep) == Kept(init, keep) + [last];
      } else {
        assert Kept(items, keep) == Kept(init, keep);
      }
    }
  }

  /** Filtering a concatenation filters each part: the order of the holdings is kept. */
  lemma {:induction false} KeptAppend(a: seq<Models.BalanceItem>, b: seq<Models.BalanceItem>, keep: Models.BalanceItem -> bool)
    ensures Kept(a + b, keep) == Kept(a, keep) + Kept(b, keep)
    decreases |b|
  {
    if b == [] {
      assert a + b == a;
    } else {
      var init := b[..|b| - 1];
      assert (a + b)[..|a + b| - 1] == a + init;
      KeptAppend(a, init, keep);
    }
  }

  /** No holding passes `keep` exactly when nothing is kept. */
  lemma NothingKept(items: seq<Models.BalanceItem>, keep: Models.BalanceItem -> bool)
    ensures Kept(items, keep) == [] <==> forall i :: 0 <= i < |items| ==> !keep(items[i])
  {
    if Kept(items, keep) == [] {
      forall i | 0 <= i < |items|
        ensures !keep(items[i])
      {
        KeptMembers(items, keep, items[i]);
      }
    } else {
      var x := Kept(items, keep)[0];
      KeptMembers(items, keep, x);
      var i :| 0 <= i < |items| && items[i] == x;
    }
  }

  /** One line per holding, in order. */
  function Lines(items: seq<Models.BalanceItem>): (r: seq<string>)
    ensures |r| == |items|
  {
    if items == [] then [] else Lines(items[..|items| - 1]) + [HoldingLine(items[|items| - 1])]
  }

  lemma {:induction false} LineAt(items: seq<Models.BalanceItem>, i: nat)
    requires i < |items|
    ensures Lines(items)[i] == HoldingLine(items[i])
    decreases |items|
  {
    if i < |items| - 1 {
      LineAt(items[..|items| - 1], i);
    }
  }

  /** `"\n---\n".join(reports)` when there are reports, the placeholder otherwise. */
  function ReportBlock(reports: seq<string>, placeholder: string): string
  {
    if reports == [] then placeholder else Text.Join(reports, ReportSeparator)
  }

  /** The step every prompt repeats: append the joined reports, or the placeholder when there are none. */
  method AppendBlock(parts: seq<string>, reports: seq<string>, placeholder: string) returns (r: seq<string>)
    ensures r == parts + [ReportBlock(reports, placeholder)]
  {
    if reports != [] {
      r := parts + [Text.Join(reports, ReportSeparator)];
    } else {
      r := parts + [placeholder];
    }
  }

  /** Every report of a block appears in it, in the order given. */
  lemma ReportsInBlock(reports: seq<string>, placeholder: string)
    ensures reports == [] ==> ReportBlock(reports, placeholder) == placeholder
    ensures reports != [] ==> exists offsets :: Text.InOrder(ReportBlock(reports, placeholder), offsets, reports)
  {
    if reports != [] {
      Text.JoinInOrder(reports, ReportSeparator);
      var offsets := seq(|reports|, i requires 0 <= i < |reports| => Text.JoinOffset(reports, ReportSeparator, i));
      assert Text.InOrder(ReportBlock(reports, placeholder), offsets, reports);
    }
  }

  /** A heading and its body, as two consecutive parts of a newline join. */
  function Section(heading: string, body: string): string
  {
    heading + "\n" + body
  }

  /**
   * A prompt built as heading, body, heading, body, ... joined by newlines is its
   * sections joined by newlines, and holds them one after the other.
   */
  lemma JoinedSections(parts: seq<string>, sections: seq<string>)
    requires |parts| % 2 == 0 && |sections| == |parts| / 2
    requires forall k :: 0 <= k < |sections| ==> sections[k] == Section(parts[2 * k], parts[2 * k + 1])
    ensures Text.Join(parts, "\n") == Text.Join(sections, "\n")
    ensures exists offsets :: Text.InOrder(Text.Join(parts, "\n"), offsets, sections)
  {
    forall k | 0 <= k < |sections|
      ensures Text.Pairs(parts, "\n")[k] == sections[k]
    {
      Text.PairAt(parts, "\n", k);
    }
    assert Text.Pairs(parts, "\n") == sections;
    Text.JoinPairs(parts, "\n");
    Text.JoinInOrder(sections, "\n");
    var offsets := seq(|sections|, i requires 0 <= i < |sections| => Text.JoinOffset(sections, "\n", i));
    assert Text.InOrder(Text.Join(sections, "\n"), offsets, sections);
  }
}
