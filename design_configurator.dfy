/** The design configurator: the option and placement state of the
    component, the handlers that update it, the arithmetic that places the
    user's image on the phone template, the decoding of the rendered image,
    and the price it displays. */
module DesignConfigurator {
  import opened Wrappers
  import opened Products
  import opened OptionValidator
  import opened JsText
  import Checkout

  datatype Point = Point(x: int, y: int)

  /** A rendered size as `parseInt` leaves it; `None` stands for `NaN`. */
  datatype Size = Size(width: Option<int>, height: Option<int>)

  /** A bounding rectangle as the browser reports it. */
  datatype Rect = Rect(left: int, top: int, width: int, height: int)

  /** The selected colour, model, material and finish. */
  datatype OptionState = OptionState(color: ColorOption, model: ModelOption, material: PricedOption, finish: PricedOption)

  /** The arguments of the call that saves the chosen options. */
  datatype SaveConfigArgs = SaveConfigArgs(configId: string, color: string, finish: string, material: string, model: string)

  /** The canvas and the `drawImage` call that composes the case image. */
  datatype DrawCall = DrawCall(canvasWidth: int, canvasHeight: int, x: int, y: int, size: Size)

  type byte = x: int | 0 <= x < 256

  datatype Blob = Blob(bytes: seq<byte>, mimeType: string)

  /** Every selected option is an entry of its table. */
  predicate FromCatalog(o: OptionState)
  {
    o.color in COLORS && o.model in MODELS.options && o.material in MATERIALS.options && o.finish in FINISHES.options
  }

  /** The initial selection: the first entry of each table. */
  function InitialOptions(): (o: OptionState)
    ensures FromCatalog(o)
    ensures o.material.price == 0 && o.finish.price == 0
  {
    OptionState(COLORS[0], MODELS.options[0], MATERIALS.options[0], FINISHES.options[0])
  }

  const INITIAL_POSITION: Point := Point(150, 205)

  /* ---------- placement ---------- */

  /** Where the template's origin lies inside the container. */
  function Offset(caseOrigin: Point, containerOrigin: Point): (o: Point)
    ensures containerOrigin.x + o.x == caseOrigin.x && containerOrigin.y + o.y == caseOrigin.y
  {
    Point(caseOrigin.x - containerOrigin.x, caseOrigin.y - containerOrigin.y)
  }

  /** The rendered position, which is relative to the container, moved into
      the template's own coordinates. */
  function TemplatePosition(rendered: Point, caseOrigin: Point, containerOrigin: Point): (p: Point)
    ensures p.x + Offset(caseOrigin, containerOrigin).x == rendered.x
    ensures p.y + Offset(caseOrigin, containerOrigin).y == rendered.y
  {
    var offset := Offset(caseOrigin, containerOrigin);
    Point(rendered.x - offset.x, rendered.y - offset.y)
  }

  /** Only the template's place relative to the container matters, not where
      the page has scrolled both to; and the worked example: a template at
      (10, 20) in a container at the origin moves (150, 205) to (140, 185). */
  lemma TemplatePositionIsRelative(rendered: Point, caseOrigin: Point, containerOrigin: Point, dx: int, dy: int)
    ensures TemplatePosition(rendered, Point(caseOrigin.x + dx, caseOrigin.y + dy), Point(containerOrigin.x + dx, containerOrigin.y + dy))
         == TemplatePosition(rendered, caseOrigin, containerOrigin)
    ensures TemplatePosition(Point(150, 205), Point(10, 20), Point(0, 0)) == Point(140, 185)
  {
  }

  /* ---------- reading the rendered image back ---------- */

  /** `dataUrl.split(',')[1]`: the piece after the first comma and before any
      second one; `None` for a URL without a comma. */
  function DataUrlPayload(dataUrl: string): (p: Option<string>)
    ensures p.Some? <==> ',' in dataUrl
    ensures p.Some? ==> ',' !in p.value
  {
    var parts := Split(dataUrl, ',');
    if |parts| > 1 then Some(parts[1]) else None
  }

  /** For a data URL `header,payload` (section 3 of RFC 2397) whose parts
      hold no further comma, the payload is read back exactly. */
  lemma PayloadOfDataUrl(header: string, payload: string)
    requires ',' !in header && ',' !in payload
    ensures DataUrlPayload(header + "," + payload) == Some(payload)
  {
    SplitAtFirst(header, ',', payload);
    SplitWithoutSeparator(payload, ',');
  }

  /** A URL without a comma has no payload. */
  lemma NoPayloadWithoutComma(dataUrl: string)
    requires ',' !in dataUrl
    ensures DataUrlPayload(dataUrl) == None
  {
    SplitWithoutSeparator(dataUrl, ',');
  }

  /** What `new Uint8Array(numbers)` stores for a number: its value modulo 256. */
  function ToUint8(n: int): byte
  {
    n % 256
  }

  function Uint8Array(numbers: seq<int>): seq<byte>
  {
    seq(|numbers|, i requires 0 <= i < |numbers| => ToUint8(numbers[i]))
  }

  /** A string whose characters each stand for one byte, as `atob` returns. */
  predicate IsBinaryString(s: string)
  {
    forall i :: 0 <= i < |s| ==> s[i] as int < 256
  }

  /** The string of one character per byte: what `atob` returns for the
      base64 encoding of `bytes`. */
  function BinaryString(bytes: seq<byte>): (s: string)
    ensures IsBinaryString(s)
  {
    seq(|bytes|, i requires 0 <= i < |bytes| => bytes[i] as char)
  }

  /** `base64ToBlob`, given the string `atob` decoded: one byte per
      character, each the character's code, so the blob holds exactly the
      bytes the string stands for. */
  method Base64ToBlob(byteCharacters: string, mimeType: string) returns (blob: Blob)
    ensures blob.mimeType == mimeType
    ensures |blob.bytes| == |byteCharacters|
    ensures forall i :: 0 <= i < |byteCharacters| ==> blob.bytes[i] == ToUint8(byteCharacters[i] as int)
    ensures IsBinaryString(byteCharacters) ==> BinaryString(blob.bytes) == byteCharacters
  {
    var byteNumbers := new int[|byteCharacters|];
    for i := 0 to |byteCharacters|
      invariant forall k :: 0 <= k < i ==> byteNumbers[k] == byteCharacters[k] as int
    {
      byteNumbers[i] := byteCharacters[i] as int;
    }
    var byteArray := Uint8Array(byteNumbers[..]);
    blob := Blob(byteArray, mimeType);
  }

  /* ---------- resize ---------- */

  /** `length.slice(0, -2)`: a CSS length without its two-letter unit. */
  function StripUnit(length: string): (r: string)
    ensures |length| >= 2 ==> r + length[|length| - 2..] == length
    ensures |length| < 2 ==> r == []
  {
    assert |length| >= 2 ==> length[..|length| - 2] + length[|length| - 2..] == length;
    Slice(length, 0, -2)
  }

  /** A whole pixel length reads back as its number. */
  lemma PixelLength(n: nat)
    ensures ParseInt(StripUnit(Decimal(n) + "px")) == Some(n)
  {
    var d := Decimal(n);
    SliceDropsSuffix(d, "px");
    assert StripUnit(d + "px") == d;
    assert d + [] == d;
    ParseDecimal(n, []);
  }

  /** A fractional pixel length reads back as its integer part. */
  lemma FractionalPixelLength(n: nat, fraction: string)
    ensures ParseInt(StripUnit(Decimal(n) + "." + fraction + "px")) == Some(n)
  {
    var d := Decimal(n) + "." + fraction;
    SliceDropsSuffix(d, "px");
    assert StripUnit(d + "px") == d;
    assert d == Decimal(n) + ("." + fraction);
    ParseDecimal(n, "." + fraction);
  }

  /* ---------- price and saved options ---------- */

  /** The price shown beside the Continue button, in cents. */
  function DisplayedPrice(o: OptionState): (price: nat)
    ensures price >= BASE_PRICE
    ensures FromCatalog(o) ==> price <= MAX_PRICE && price % 100 == 0
  {
    PricedTables();
    BASE_PRICE + o.finish.price + o.material.price
  }

  /** The options as the save call sends them: the id and each value token. */
  function SaveArgs(configId: string, o: OptionState): SaveConfigArgs
  {
    SaveConfigArgs(configId, o.color.value, o.finish.value, o.material.value, o.model.value)
  }

  /** Saving loses nothing: since the tokens of each table are distinct, the
      saved tokens determine the selected options. */
  lemma SaveArgsDetermineOptions(configId: string, o1: OptionState, o2: OptionState)
    requires FromCatalog(o1) && FromCatalog(o2)
    requires SaveArgs(configId, o1) == SaveArgs(configId, o2)
    ensures o1 == o2
  {
    ColorTable();
    ModelTable();
    PricedTables();
  }

  /** For every choice from the tables, the price displayed is the price the
      checkout charges once the saved tokens are read back; the first
      entries show the base price. */
  lemma DisplayedPriceIsCheckoutPrice(configId: string, o: OptionState)
    requires FromCatalog(o)
    ensures DisplayedPrice(o) == Checkout.CheckoutPrice(Some(SaveArgs(configId, o).finish), Some(SaveArgs(configId, o).material))
    ensures DisplayedPrice(InitialOptions()) == BASE_PRICE
  {
    PricedTables();
    var m, f := MATERIALS.options, FINISHES.options;
    assert o.material == m[0] || o.material == m[1];
    assert o.finish == f[0] || o.finish == f[1];
  }

  /* ---------- the component's state ---------- */

  class Configurator {
    const configId: string
    const imageUrl: string
    var options: OptionState
    var renderedDimension: Size
    var renderedPosition: Point

    ghost predicate Valid()
      reads this`options
    {
      FromCatalog(options)
    }

    /** The state on mount; `width` and `height` are the initial rendered size. */
    constructor (configId: string, imageUrl: string, width: int, height: int)
      ensures Valid()
      ensures this.configId == configId && this.imageUrl == imageUrl
      ensures options == InitialOptions()
      ensures renderedPosition == INITIAL_POSITION
      ensures renderedDimension == Size(Some(width), Some(height))
    {
      this.configId := configId;
      this.imageUrl := imageUrl;
      options := InitialOptions();
      renderedPosition := INITIAL_POSITION;
      renderedDimension := Size(Some(width), Some(height));
    }

    method SelectColor(color: ColorOption)
      requires Valid() && color in COLORS
      modifies this`options
      ensures Valid()
      ensures options == old(options).(color := color)
    {
      options := options.(color := color);
    }

    method SelectModel(model: ModelOption)
      requires Valid() && model in MODELS.options
      modifies this`options
      ensures Valid()
      ensures options == old(options).(model := model)
    {
      options := options.(model := model);
    }

    /** The radio group named `MATERIALS.name`, that is "material". */
    method SelectMaterial(material: PricedOption)
      requires Valid() && material in MATERIALS.options
      modifies this`options
      ensures Valid()
      ensures options == old(options).(material := material)
    {
      options := options.(material := material);
    }

    /** The radio group named `FINISHES.name`, that is "finish". */
    method SelectFinish(finish: PricedOption)
      requires Valid() && finish in FINISHES.options
      modifies this`options
      ensures Valid()
      ensures options == old(options).(finish := finish)
    {
      options := options.(finish := finish);
    }

    /** `onResizeStop`: the element's style lengths and the reported position. */
    method ResizeStop(styleWidth: string, styleHeight: string, x: int, y: int)
      modifies this`renderedDimension, this`renderedPosition
      ensures Valid() == old(Valid())
      ensures renderedDimension == Size(ParseInt(StripUnit(styleWidth)), ParseInt(StripUnit(styleHeight)))
      ensures renderedPosition == Point(x, y)
    {
      renderedDimension := Size(ParseInt(StripUnit(styleWidth)), ParseInt(StripUnit(styleHeight)));
      renderedPosition := Point(x, y);
    }

    /** `onDragStop`: only the position moves. */
    method DragStop(x: int, y: int)
      modifies this`renderedPosition
      ensures Valid() == old(Valid())
      ensures renderedPosition == Point(x, y)
    {
      renderedPosition := Point(x, y);
    }

    /** The canvas and draw call of `saveConfiguration`: a canvas the size of
        the template, with the user's image at its template-relative place
        and at its rendered size. */
    method ComposeDrawCall(caseRect: Rect, containerRect: Rect) returns (draw: DrawCall)
      ensures draw.canvasWidth == caseRect.width && draw.canvasHeight == caseRect.height
      ensures draw.x + (caseRect.left - containerRect.left) == renderedPosition.x
      ensures draw.y + (caseRect.top - containerRect.top) == renderedPosition.y
      ensures draw.size == renderedDimension
    {
      var leftOffset := caseRect.left - containerRect.left;
      var topOffset := caseRect.top - containerRect.top;
      var actualX := renderedPosition.x - leftOffset;
      var actualY := renderedPosition.y - topOffset;
      draw := DrawCall(caseRect.width, caseRect.height, actualX, actualY, renderedDimension);
    }

    /** The price displayed for the current selection. */
    function Price(): (price: nat)
      reads this
      requires Valid()
      ensures BASE_PRICE <= price <= MAX_PRICE
      ensures price == Checkout.CheckoutPrice(Some(options.finish.value), Some(options.material.value))
    {
      DisplayedPriceIsCheckoutPrice(configId, options);
      DisplayedPrice(options)
    }

    /** The arguments of the Continue button's save call. */
    function SaveArguments(): (args: SaveConfigArgs)
      reads this
      requires Valid()
      ensures args.configId == configId
      ensures args.color == options.color.value && args.model == options.model.value
      ensures args.material == options.material.value && args.finish == options.finish.value
      ensures exists c :: c in COLORS && c.value == args.color
      ensures exists m :: m in MODELS.options && m.value == args.model
      ensures exists m :: m in MATERIALS.options && m.value == args.material
      ensures exists f :: f in FINISHES.options && f.value == args.finish
    {
      SaveArgs(configId, options)
    }
  }
}
