// Transaction charges of one execution.
module Costs {
  import opened Money
  import opened Domain

  datatype Schedule = Schedule(
    brokerageRate: real,
    brokerageCap: Paise,
    sttIntradaySellRate: real,
    sttDeliveryRate: real,
    exchangeTransactionRate: real,
    gstRate: real,
    sebiTurnoverRate: real,
    stampDutyRate: real)
  {
    predicate NonNegative() {
      && brokerageRate >= 0.0 && brokerageCap >= 0 && sttIntradaySellRate >= 0.0
      && sttDeliveryRate >= 0.0 && exchangeTransactionRate >= 0.0 && gstRate >= 0.0
      && sebiTurnoverRate >= 0.0 && stampDutyRate >= 0.0
    }
  }

  datatype Breakdown = Breakdown(
    brokerage: Paise,
    stt: Paise,
    exchangeCharges: Paise,
    gst: Paise,
    sebiCharges: Paise,
    stampDuty: Paise)
  {
    function Total(): Paise {
      brokerage + stt + exchangeCharges + gst + sebiCharges + stampDuty
    }
  }

  /** A cap of zero means no cap. Delivery pays the transaction tax on both legs, intraday on the sell leg. */
  function ComputeCosts(turnover: Paise, side: Side, product: Product, schedule: Schedule): Breakdown
    requires turnover >= 0
  {
    var uncapped := MulRate(turnover, schedule.brokerageRate);
    var brokerage := if schedule.brokerageCap == 0 then uncapped else Min(uncapped, schedule.brokerageCap);
    var stt :=
      if product.CNC? then MulRate(turnover, schedule.sttDeliveryRate)
      else if side.SELL? then MulRate(turnover, schedule.sttIntradaySellRate)
      else 0;
    var exchangeCharges := MulRate(turnover, schedule.exchangeTransactionRate);
    var sebiCharges := MulRate(turnover, schedule.sebiTurnoverRate);
    var gst := MulRate(brokerage + exchangeCharges + sebiCharges, schedule.gstRate);
    var stampDuty := if side.BUY? then MulRate(turnover, schedule.stampDutyRate) else 0;
    Breakdown(brokerage, stt, exchangeCharges, gst, sebiCharges, stampDuty)
  }

  /** Trading is never free money: no charge is negative, so commission only ever leaves the account. */
  lemma ChargesNonNegative(turnover: Paise, side: Side, product: Product, schedule: Schedule)
    requires turnover >= 0 && schedule.NonNegative()
    ensures var b := ComputeCosts(turnover, side, product, schedule);
            && b.brokerage >= 0 && b.stt >= 0 && b.exchangeCharges >= 0
            && b.gst >= 0 && b.sebiCharges >= 0 && b.stampDuty >= 0
            && (schedule.brokerageCap > 0 ==> b.brokerage <= schedule.brokerageCap)
  {
    hide MulRate;
    MulRateNonNegative(turnover, schedule.brokerageRate);
    MulRateNonNegative(turnover, schedule.sttDeliveryRate);
    MulRateNonNegative(turnover, schedule.sttIntradaySellRate);
    MulRateNonNegative(turnover, schedule.exchangeTransactionRate);
    MulRateNonNegative(turnover, schedule.sebiTurnoverRate);
    MulRateNonNegative(turnover, schedule.stampDutyRate);
    var b := ComputeCosts(turnover, side, product, schedule);
    MulRateNonNegative(b.brokerage + b.exchangeCharges + b.sebiCharges, schedule.gstRate);
  }

  /** Within half a paisa of an amount. */
  predicate Rounds(charge: Paise, exact: real) {
    exact - 0.5 <= charge as real <= exact + 0.5
  }

  /**
   * What one execution is charged, each charge to the paisa: capped brokerage; the transaction tax on
   * either leg of a delivery and on the sale alone intraday; stamp duty on the purchase alone; and the
   * service tax on brokerage and the two fees, never on the taxes.
   */
  lemma ChargesFollowTheSchedule(turnover: Paise, side: Side, product: Product, schedule: Schedule)
    requires turnover >= 0
    ensures var b := ComputeCosts(turnover, side, product, schedule);
      var amount := turnover as real;
      && (schedule.brokerageCap == 0 ==> Rounds(b.brokerage, amount * schedule.brokerageRate))
      && (schedule.brokerageCap != 0 ==>
            && b.brokerage <= schedule.brokerageCap
            && b.brokerage as real <= amount * schedule.brokerageRate + 0.5
            && (b.brokerage < schedule.brokerageCap ==> Rounds(b.brokerage, amount * schedule.brokerageRate)))
      && (product.CNC? ==> Rounds(b.stt, amount * schedule.sttDeliveryRate))
      && (!product.CNC? && side.SELL? ==> Rounds(b.stt, amount * schedule.sttIntradaySellRate))
      && (!product.CNC? && side.BUY? ==> b.stt == 0)
      && (side.BUY? ==> Rounds(b.stampDuty, amount * schedule.stampDutyRate))
      && (side.SELL? ==> b.stampDuty == 0)
      && Rounds(b.exchangeCharges, amount * schedule.exchangeTransactionRate)
      && Rounds(b.sebiCharges, amount * schedule.sebiTurnoverRate)
      && Rounds(b.gst, (b.brokerage + b.exchangeCharges + b.sebiCharges) as real * schedule.gstRate)
      && b.Total() - b.gst - b.stt - b.stampDuty == b.brokerage + b.exchangeCharges + b.sebiCharges
  {
    hide MulRate;
  }

  /** An intraday round trip at one turnover pays the transaction tax once and the stamp duty once. */
  lemma RoundTripPaysTaxesOnce(turnover: Paise, product: Product, schedule: Schedule)
    requires turnover >= 0 && !product.CNC?
    ensures var bought, sold := ComputeCosts(turnover, BUY, product, schedule), ComputeCosts(turnover, SELL, product, schedule);
      && Rounds(bought.stt + sold.stt, turnover as real * schedule.sttIntradaySellRate)
      && Rounds(bought.stampDuty + sold.stampDuty, turnover as real * schedule.stampDutyRate)
      && bought.brokerage == sold.brokerage && bought.gst == sold.gst
  {
    hide MulRate;
    ChargesFollowTheSchedule(turnover, BUY, product, schedule);
    ChargesFollowTheSchedule(turnover, SELL, product, schedule);
  }
}
