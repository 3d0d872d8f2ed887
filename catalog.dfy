/** The seed catalog the store starts with. */
module Catalog {
  import opened Types

  const LedMask: Product := Product(
    "ali-1",
    "LumiGlow LED Therapy Mask",
    "Advanced 7-color light therapy for salon-quality skincare at home. Target acne, wrinkles, and hyperpigmentation with medical-grade LEDs.",
    "The future of facial rejuvenation.",
    129.99,
    45.00,
    Tools,
    ["https://picsum.photos/seed/ledmask/800/800", "https://picsum.photos/seed/led2/800/800"],
    [Variant("v1", "Original White", 129.99, 50)],
    "https://aliexpress.com/item/1005008626035616.html",
    50,
    true,
    ["Reduces fine lines", "Kills acne bacteria", "Brightens skin tone"],
    PM,
    None,
    Some([
      BeforeAfterResult(
        "https://images.unsplash.com/photo-1596755094514-f87e34085b2c?auto=format&fit=crop&q=80&w=400&h=400",
        "https://images.unsplash.com/photo-1512431119117-4124962ca4d0?auto=format&fit=crop&q=80&w=400&h=400",
        Some("Visible reduction in redness after 4 weeks of daily PM use.")),
      BeforeAfterResult(
        "https://images.unsplash.com/photo-1509967419530-da38b4704bc6?auto=format&fit=crop&q=80&w=400&h=400",
        "https://images.unsplash.com/photo-1522337360788-8b13dee7a37e?auto=format&fit=crop&q=80&w=400&h=400",
        Some("Texture refinement and tone evening reported after 15 sessions."))
    ]),
    None)

  const BrushPurifier: Product := Product(
    "ali-2",
    "Sonic Makeup Brush Purifier",
    "Keep your brushes pristine with our ultrasonic cleaning technology. Removes 99% of bacteria and makeup residue in seconds.",
    "Professional brush hygiene made simple.",
    49.99,
    18.50,
    Tools,
    ["https://picsum.photos/seed/cleaner/800/800"],
    [Variant("v2", "Pearl Pink", 49.99, 120)],
    "https://aliexpress.com/item/1005007336014767.html",
    120,
    true,
    ["Extends brush life", "Prevents breakouts", "Easy USB charging"],
    Both,
    None,
    None,
    None)

  const VanityOrganizer: Product := Product(
    "ali-3",
    "Atelier Rotating Vanity Organizer",
    "360-degree silent rotation storage for your entire collection. Crystal-clear luxury design to display your favorite serums and palettes.",
    "Elegance for your dressing table.",
    64.99,
    22.00,
    Body,
    ["https://picsum.photos/seed/vanity/800/800"],
    [Variant("v3", "Clear Crystal", 64.99, 85)],
    "https://aliexpress.com/item/1005007449621980.html",
    85,
    true,
    ["Space saving", "Adjustable layers", "Waterproof design"],
    Both,
    None,
    None,
    None)

  /** The catalog a fresh store holds. */
  const InitialProducts: seq<Product> := [LedMask, BrushPurifier, VanityOrganizer]

  /** Three products, with pairwise distinct ids ali-1, ali-2, ali-3. */
  lemma InitialProductIds()
    ensures |InitialProducts| == 3
    ensures InitialProducts[0].id == "ali-1" && InitialProducts[1].id == "ali-2" && InitialProducts[2].id == "ali-3"
    ensures forall i, j :: 0 <= i < j < |InitialProducts| ==> InitialProducts[i].id != InitialProducts[j].id
  {
  }

  /** Seed prices and costs, and every seed product sells above its cost. */
  lemma InitialPricing()
    ensures InitialProducts[0].price == 129.99 && InitialProducts[0].costPrice == 45.00
    ensures InitialProducts[1].price == 49.99 && InitialProducts[1].costPrice == 18.50
    ensures InitialProducts[2].price == 64.99 && InitialProducts[2].costPrice == 22.00
    ensures forall p :: p in InitialProducts ==> p.price > p.costPrice > 0.0
  {
  }

  /** ali-1 and ali-2 are Tools, ali-3 is Body; every seed product has images,
      exactly one variant priced and stocked like the product, and is AI-optimized. */
  lemma InitialProductShape()
    ensures InitialProducts[0].category == Tools && InitialProducts[1].category == Tools
    ensures InitialProducts[2].category == Body
    ensures forall p :: p in InitialProducts ==>
      && |p.images| > 0
      && |p.variants| == 1
      && p.variants[0].price == p.price
      && p.variants[0].stock == p.inventory
      && p.isAiOptimized
  {
  }
}
