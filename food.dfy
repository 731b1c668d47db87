/** The food log (app/(tabs)/food.tsx): an append-only list of today's entries, daily
    totals folded over it, and the photo and barcode handlers that append to it. */
module Food {
  import opened Wrappers
  import Api

  /** One logged food as the screen keeps it; `id` and `time` come from the clock. */
  datatype FoodItem = FoodItem(id: string, name: string, calories: real, protein: real, carbs: real,
                               fat: real, time: string, verified: bool, imageUrl: Option<string>)

  /** The two entries the list starts with. */
  const InitialFoods: seq<FoodItem> := [
    FoodItem("1", "Greek Yogurt with Berries", 120.0, 15.0, 12.0, 2.0, "8:30 AM", true, None),
    FoodItem("2", "Grilled Chicken Breast", 185.0, 35.0, 0.0, 4.0, "12:45 PM", true, None)
  ]

  // ---------------------------------------------------------------------------
  // Daily totals

  datatype Nutrient = Calories | Protein | Carbs | Fat

  function Amount(food: FoodItem, n: Nutrient): real {
    match n
    case Calories => food.calories
    case Protein => food.protein
    case Carbs => food.carbs
    case Fat => food.fat
  }

  /** `foods.reduce((sum, food) => sum + food.<n>, acc)`: a left fold. */
  function Reduce(acc: real, foods: seq<FoodItem>, n: Nutrient): real
    decreases |foods|
  {
    if foods == [] then acc else Reduce(acc + Amount(foods[0], n), foods[1..], n)
  }

  /** The daily total shown for one nutrient, folded from 0. */
  function DailyTotal(foods: seq<FoodItem>, n: Nutrient): real {
    Reduce(0.0, foods, n)
  }

  /** The reference sum the totals are checked against. */
  function Sum(foods: seq<FoodItem>, n: Nutrient): real
    decreases |foods|
  {
    if foods == [] then 0.0 else Amount(foods[0], n) + Sum(foods[1..], n)
  }

  lemma {:induction false} ReduceIsSum(acc: real, foods: seq<FoodItem>, n: Nutrient)
    ensures Reduce(acc, foods, n) == acc + Sum(foods, n)
    decreases |foods|
  {
    if foods != [] {
      ReduceIsSum(acc + Amount(foods[0], n), foods[1..], n);
    }
  }

  lemma {:induction false} SumAppend(foods: seq<FoodItem>, food: FoodItem, n: Nutrient)
    ensures Sum(foods + [food], n) == Sum(foods, n) + Amount(food, n)
    decreases |foods|
  {
    if foods != [] {
      assert (foods + [food])[1..] == foods[1..] + [food];
      SumAppend(foods[1..], food, n);
    }
  }

  /** Each daily total is the sum of its field over the list, and 0 for an empty list. */
  lemma DailyTotalIsSum(foods: seq<FoodItem>, n: Nutrient)
    ensures DailyTotal(foods, n) == Sum(foods, n)
    ensures foods == [] ==> DailyTotal(foods, n) == 0.0
  {
    ReduceIsSum(0.0, foods, n);
  }

  /** Appending one entry raises each total by exactly that entry's amount. */
  lemma DailyTotalAppend(foods: seq<FoodItem>, food: FoodItem, n: Nutrient)
    ensures DailyTotal(foods + [food], n) == DailyTotal(foods, n) + Amount(food, n)
  {
    ReduceIsSum(0.0, foods, n);
    ReduceIsSum(0.0, foods + [food], n);
    SumAppend(foods, food, n);
  }

  /** Entries with no negative amount give a total that is not negative either. */
  lemma {:induction false} DailyTotalNonNegative(foods: seq<FoodItem>, n: Nutrient)
    requires forall i :: 0 <= i < |foods| ==> Amount(foods[i], n) >= 0.0
    ensures DailyTotal(foods, n) >= 0.0
  {
    ReduceIsSum(0.0, foods, n);
    SumNonNegative(foods, n);
  }

  lemma {:induction false} SumNonNegative(foods: seq<FoodItem>, n: Nutrient)
    requires forall i :: 0 <= i < |foods| ==> Amount(foods[i], n) >= 0.0
    ensures Sum(foods, n) >= 0.0
    decreases |foods|
  {
    if foods != [] {
      assert Amount(foods[0], n) >= 0.0;
      assert forall i :: 0 <= i < |foods[1..]| ==> foods[1..][i] == foods[i + 1];
      SumNonNegative(foods[1..], n);
    }
  }

  // ---------------------------------------------------------------------------
  // New entries

  const VerifiedThreshold: real := 0.8

  /** `analysis.confidence > 0.8`. */
  predicate IsVerified(confidence: real) {
    confidence > VerifiedThreshold
  }

  /** The entry built from a photo analysis. */
  function PhotoEntry(id: string, time: string, imageUri: string, analysis: Api.FoodAnalysis): (f: FoodItem)
    ensures f.verified <==> analysis.confidence > 0.8
    ensures f.name == analysis.name && f.imageUrl == Some(imageUri) && f.id == id && f.time == time
    ensures f.calories == analysis.calories && f.protein == analysis.protein
    ensures f.carbs == analysis.carbs && f.fat == analysis.fat
  {
    FoodItem(id, analysis.name, analysis.calories, analysis.protein, analysis.carbs, analysis.fat,
             time, IsVerified(analysis.confidence), Some(imageUri))
  }

  /** The entry built from a barcode lookup: `{id, ...foodData, time}`. */
  function BarcodeEntry(id: string, time: string, facts: Api.FoodFacts): (f: FoodItem)
    ensures f.verified == facts.verified && f.imageUrl == None && f.name == facts.name
    ensures f.calories == facts.calories && f.protein == facts.protein
    ensures f.carbs == facts.carbs && f.fat == facts.fat
  {
    FoodItem(id, facts.name, facts.calories, facts.protein, facts.carbs, facts.fat, time, facts.verified, None)
  }

  /** Every entry that a successful barcode lookup produces is verified. */
  lemma BarcodeEntriesAreVerified(barcode: string, id: string, time: string, reply: Result<Api.BarcodeReply, Api.JsError>)
    requires Api.LookupBarcode(barcode, reply).1.Ok?
    ensures BarcodeEntry(id, time, Api.LookupBarcode(barcode, reply).1.value).verified
  {
  }

  // ---------------------------------------------------------------------------
  // Handlers

  /** What one handler does outside the list, in order. */
  datatype Effect =
    | SetShowScanner(on: bool)
    | SetLoading(on: bool)
    | CallAnalyzeFoodImage(imageUri: string)
    | CallLookupBarcode(barcode: string)
    | AppendEntry(entry: FoodItem)
    | CallSaveFoodEntry(entry: FoodItem)
    | ShowAlert(title: string, message: string)

  const LoggedMessage: string := "Food logged successfully!"
  const PhotoFailedMessage: string := "Failed to analyze food image. Please try again."
  const BarcodeFailedMessage: string := "Product not found. Please try manual entry."
  const ScannerPermissionMessage: string := "Camera permission is required to scan barcodes"

  /** The list after one handler: one entry more when the gateway produced one. */
  function Logged(foods: seq<FoodItem>, entry: Option<FoodItem>): seq<FoodItem> {
    match entry
    case Some(e) => foods + [e]
    case None => foods
  }

  /** The middle of a handler once the gateway call returned: append, save, then the
      success alert, or the handler's error alert when the call or the save throws. */
  function AfterCall(entry: Option<FoodItem>, save: Outcome<Api.JsError>, failMessage: string): seq<Effect> {
    match entry
    case None => [ShowAlert("Error", failMessage)]
    case Some(e) =>
      [AppendEntry(e), CallSaveFoodEntry(e)]
      + (if save.Pass? then [ShowAlert("Success", LoggedMessage)] else [ShowAlert("Error", failMessage)])
  }

  function PhotoEffects(imageUri: string, entry: Option<FoodItem>, save: Outcome<Api.JsError>): seq<Effect> {
    [SetLoading(true), CallAnalyzeFoodImage(imageUri)] + AfterCall(entry, save, PhotoFailedMessage) + [SetLoading(false)]
  }

  function BarcodeEffects(barcode: string, entry: Option<FoodItem>, save: Outcome<Api.JsError>): seq<Effect> {
    [SetShowScanner(false), SetLoading(true), CallLookupBarcode(barcode)]
    + AfterCall(entry, save, BarcodeFailedMessage) + [SetLoading(false)]
  }

  /** After the gateway call: nothing is appended when it failed; otherwise the entry is
      appended before it is saved, and a failed save only changes the alert. */
  lemma AfterCallOrder(entry: Option<FoodItem>, save: Outcome<Api.JsError>, failMessage: string)
    ensures var effs := AfterCall(entry, save, failMessage);
      && (entry.None? ==> effs == [ShowAlert("Error", failMessage)])
      && (entry.Some? ==> |effs| == 3 && effs[0] == AppendEntry(entry.value)
                          && effs[1] == CallSaveFoodEntry(entry.value)
                          && effs[2] == ShowAlert(if save.Pass? then "Success" else "Error",
                                                  if save.Pass? then LoggedMessage else failMessage))
  {
  }

  /** The barcode handler closes the scanner before raising `loading`, raises `loading`
      before the lookup, and clears it last. */
  lemma BarcodeScannerClosesFirst(barcode: string, entry: Option<FoodItem>, save: Outcome<Api.JsError>)
    ensures var effs := BarcodeEffects(barcode, entry, save);
      && |effs| >= 5
      && effs[0] == SetShowScanner(false) && effs[1] == SetLoading(true) && effs[2] == CallLookupBarcode(barcode)
      && effs[|effs| - 1] == SetLoading(false)
      && (forall i :: 1 < i < |effs| - 1 ==> !effs[i].SetLoading? && !effs[i].SetShowScanner?)
  {
  }

  /** The photo handler raises `loading` before the analysis call and clears it last,
      whatever the analysis and the save do. */
  lemma PhotoLoadingBrackets(imageUri: string, entry: Option<FoodItem>, save: Outcome<Api.JsError>)
    ensures var effs := PhotoEffects(imageUri, entry, save);
      && |effs| >= 4
      && effs[0] == SetLoading(true) && effs[1] == CallAnalyzeFoodImage(imageUri)
      && effs[|effs| - 1] == SetLoading(false)
      && (forall i :: 0 < i < |effs| - 1 ==> !effs[i].SetLoading?)
      && ((exists i :: 0 <= i < |effs| && effs[i].AppendEntry?) <==> entry.Some?)
      && (entry.Some? ==> effs[2] == AppendEntry(entry.value))
  {
    AfterCallOrder(entry, save, PhotoFailedMessage);
    var effs := PhotoEffects(imageUri, entry, save);
    if entry.None? {
      assert effs == [SetLoading(true), CallAnalyzeFoodImage(imageUri), ShowAlert("Error", PhotoFailedMessage), SetLoading(false)];
    } else {
      assert effs[2].AppendEntry?;
    }
  }

  class FoodScreen {
    var loading: bool
    var showScanner: bool
    var todaysFoods: seq<FoodItem>

    constructor ()
      ensures !loading && !showScanner && todaysFoods == InitialFoods
    {
      loading := false;
      showScanner := false;
      todaysFoods := InitialFoods;
    }

    /** `analyzeFoodImage`, with the analysis and the save outcome as inputs and the clock's
        id and time as parameters: one entry is appended exactly when the analysis
        succeeds, a failed save does not remove it, and `loading` ends false. */
    method AnalyzeFoodImage(imageUri: string, id: string, time: string,
                            analysis: Result<Api.FoodAnalysis, Api.JsError>, save: Outcome<Api.JsError>)
      returns (effects: seq<Effect>)
      modifies this`loading, this`todaysFoods
      ensures var entry := if analysis.Ok? then Some(PhotoEntry(id, time, imageUri, analysis.value)) else None;
        todaysFoods == Logged(old(todaysFoods), entry) && effects == PhotoEffects(imageUri, entry, save)
      ensures !loading
    {
      loading := true;
      effects := [SetLoading(true), CallAnalyzeFoodImage(imageUri)];
      match analysis {
        case Err(_) =>
          effects := effects + [ShowAlert("Error", PhotoFailedMessage)];
        case Ok(a) =>
          var newFood := PhotoEntry(id, time, imageUri, a);
          todaysFoods := todaysFoods + [newFood];
          effects := effects + [AppendEntry(newFood), CallSaveFoodEntry(newFood)];
          if save.Pass? {
            effects := effects + [ShowAlert("Success", LoggedMessage)];
          } else {
            effects := effects + [ShowAlert("Error", PhotoFailedMessage)];
          }
      }
      loading := false;
      effects := effects + [SetLoading(false)];
    }

    /** `handleBarcodeScanned`, with the lookup and the save outcome as inputs: the scanner
        is closed, one entry is appended exactly when the lookup succeeds, and `loading`
        ends false. */
    method HandleBarcodeScanned(barcode: string, id: string, time: string,
                                lookup: Result<Api.FoodFacts, Api.JsError>, save: Outcome<Api.JsError>)
      returns (effects: seq<Effect>)
      modifies this`loading, this`showScanner, this`todaysFoods
      ensures var entry := if lookup.Ok? then Some(BarcodeEntry(id, time, lookup.value)) else None;
        todaysFoods == Logged(old(todaysFoods), entry) && effects == BarcodeEffects(barcode, entry, save)
      ensures !loading && !showScanner
    {
      showScanner := false;
      loading := true;
      effects := [SetShowScanner(false), SetLoading(true), CallLookupBarcode(barcode)];
      match lookup {
        case Err(_) =>
          effects := effects + [ShowAlert("Error", BarcodeFailedMessage)];
        case Ok(facts) =>
          var newFood := BarcodeEntry(id, time, facts);
          todaysFoods := todaysFoods + [newFood];
          effects := effects + [AppendEntry(newFood), CallSaveFoodEntry(newFood)];
          if save.Pass? {
            effects := effects + [ShowAlert("Success", LoggedMessage)];
          } else {
            effects := effects + [ShowAlert("Error", BarcodeFailedMessage)];
          }
      }
      loading := false;
      effects := effects + [SetLoading(false)];
    }

    /** `handleBarcodeScanner`: the scanner opens when the permission is granted. */
    method OpenScanner(granted: bool) returns (effects: seq<Effect>)
      modifies this`showScanner
      ensures showScanner == (granted || old(showScanner))
      ensures effects == if granted then [SetShowScanner(true)]
                         else [ShowAlert("Permission Required", ScannerPermissionMessage)]
    {
      if granted {
        showScanner := true;
        effects := [SetShowScanner(true)];
      } else {
        effects := [ShowAlert("Permission Required", ScannerPermissionMessage)];
      }
    }

    /** The scanner's "Cancel" button. */
    method CancelScanner()
      modifies this`showScanner
      ensures !showScanner
    {
      showScanner := false;
    }
  }

  /** A handler's list update keeps every earlier entry in place, adds at most one at the
      end, and moves each total by exactly the added entry's amount. */
  lemma LoggedKeepsEarlierEntries(foods: seq<FoodItem>, entry: Option<FoodItem>, n: Nutrient)
    ensures var after := Logged(foods, entry);
      && |after| == |foods| + (if entry.Some? then 1 else 0)
      && after[..|foods|] == foods
      && (entry.Some? ==> after[|foods|] == entry.value
                          && DailyTotal(after, n) == DailyTotal(foods, n) + Amount(entry.value, n))
      && (entry.None? ==> DailyTotal(after, n) == DailyTotal(foods, n))
  {
    if entry.Some? {
      DailyTotalAppend(foods, entry.value, n);
    }
  }
}
